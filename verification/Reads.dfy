/**
 The derived reads: the seat map (seats.go) and the booking history (bookings.go), as sets of lines.
 Each judges liveness at its own `now()`.
 */
module Reads {
  import opened Options
  import opened Tables

  datatype SeatLine = SeatLine(seatId: string, section: string, status: Option<Status>, holdExpiresAt: Option<Time>)

  /** The lines of ListSeats (seats.go:11-40): one per live booking joined to a seat of the match, and an
      `available` line for a seat that none joins. */
  ghost function SeatMap(db: Db, now: Time, m: string): set<SeatLine> {
    (set i | i in db.bookings && db.bookings[i].matchId == m && (m, db.bookings[i].seatId) in db.seats && Live(db.bookings[i], now)
       :: SeatLine(db.bookings[i].seatId, db.seats[(m, db.bookings[i].seatId)], Some(db.bookings[i].status), db.bookings[i].holdExpiresAt))
    + (set p | p in db.seats && p.0 == m && !LiveAt(db.bookings, m, p.1, now) :: SeatLine(p.1, db.seats[p], None, None))
  }

  predicate LiveAt(bs: map<Id, Booking>, m: string, s: string, now: Time) {
    exists i :: i in bs && bs[i].matchId == m && bs[i].seatId == s && Live(bs[i], now)
  }

  /** The row has the seat at `now`: it is sold, or a hold that is not over. */
  predicate Has(r: Booking, m: string, s: string, now: Time) {
    && r.matchId == m && r.seatId == s
    && (r.status == Confirmed || (r.status == Held && r.holdExpiresAt.Some? && now < r.holdExpiresAt.value))
  }

  /** The line shows its seat as it is: available, with no expiry, iff no row has it, and otherwise with the
      status and the expiry of the row that has it. */
  ghost predicate ShowsItsSeat(x: SeatLine, bs: map<Id, Booking>, now: Time, m: string) {
    && (x.status.None? <==> forall i :: i in bs ==> !Has(bs[i], m, x.seatId, now))
    && (x.status.None? ==> x.holdExpiresAt.None?)
    && (forall i :: i in bs && Has(bs[i], m, x.seatId, now) ==>
          x.status == Some(bs[i].status) && x.holdExpiresAt == bs[i].holdExpiresAt)
  }

  /** What the buyer is promised of a seat map: exactly one line for each seat of the match, with the
      seat's section, that shows the seat as it is. */
  ghost predicate IsSeatMap(lines: set<SeatLine>, db: Db, now: Time, m: string) {
    && (forall s :: (m, s) in db.seats ==> exists x :: x in lines && x.seatId == s)
    && (forall x, y :: x in lines && y in lines && x.seatId == y.seatId ==> x == y)
    && (forall x :: x in lines ==>
          (m, x.seatId) in db.seats && x.section == db.seats[(m, x.seatId)] && ShowsItsSeat(x, db.bookings, now, m))
  }

  lemma RowOfLine(db: Db, now: Time, m: string, x: SeatLine) returns (i: Id)
    requires x in SeatMap(db, now, m) && x.status.Some?
    ensures i in db.bookings && Has(db.bookings[i], m, x.seatId, now) && (m, x.seatId) in db.seats
    ensures x == SeatLine(x.seatId, db.seats[(m, x.seatId)], Some(db.bookings[i].status), db.bookings[i].holdExpiresAt)
  {
    i :| i in db.bookings && db.bookings[i].matchId == m && (m, db.bookings[i].seatId) in db.seats && Live(db.bookings[i], now)
         && x == SeatLine(db.bookings[i].seatId, db.seats[(m, db.bookings[i].seatId)], Some(db.bookings[i].status), db.bookings[i].holdExpiresAt);
  }

  lemma LinesShowTheirSeats(db: Db, now: Time, m: string, x: SeatLine)
    requires SeatUnique(db.bookings) && x in SeatMap(db, now, m)
    ensures (m, x.seatId) in db.seats && x.section == db.seats[(m, x.seatId)] && ShowsItsSeat(x, db.bookings, now, m)
  {
    var bs := db.bookings;
    if x.status.Some? {
      var i := RowOfLine(db, now, m, x);
      forall j | j in bs && Has(bs[j], m, x.seatId, now) ensures j == i {
        assert ActiveAt(bs[i], m, x.seatId) && ActiveAt(bs[j], m, x.seatId);
      }
    } else {
      assert (m, x.seatId) in db.seats && !LiveAt(bs, m, x.seatId, now);
      forall i | i in bs ensures !Has(bs[i], m, x.seatId, now) {
      }
    }
  }

  lemma EverySeatHasALine(db: Db, now: Time, m: string, s: string) returns (x: SeatLine)
    requires (m, s) in db.seats
    ensures x in SeatMap(db, now, m) && x.seatId == s
  {
    if LiveAt(db.bookings, m, s, now) {
      var i :| i in db.bookings && db.bookings[i].matchId == m && db.bookings[i].seatId == s && Live(db.bookings[i], now);
      x := SeatLine(s, db.seats[(m, s)], Some(db.bookings[i].status), db.bookings[i].holdExpiresAt);
    } else {
      x := SeatLine(s, db.seats[(m, s)], None, None);
    }
  }

  /** Two lines that show one seat as it is say the same. */
  lemma SameSeatSameLine(db: Db, now: Time, m: string, x: SeatLine, y: SeatLine)
    requires x.seatId == y.seatId && ShowsItsSeat(x, db.bookings, now, m) && ShowsItsSeat(y, db.bookings, now, m)
    ensures x.status == y.status && x.holdExpiresAt == y.holdExpiresAt
  {
    if x.status.Some? {
      var i :| i in db.bookings && Has(db.bookings[i], m, x.seatId, now);
    }
  }

  lemma SeatMapIsOne(db: Db, now: Time, m: string)
    requires SeatUnique(db.bookings)
    ensures IsSeatMap(SeatMap(db, now, m), db, now, m)
  {
    var lines := SeatMap(db, now, m);
    forall s | (m, s) in db.seats ensures exists x :: x in lines && x.seatId == s {
      var x := EverySeatHasALine(db, now, m, s);
    }
    forall x | x in lines
      ensures (m, x.seatId) in db.seats && x.section == db.seats[(m, x.seatId)] && ShowsItsSeat(x, db.bookings, now, m)
    {
      LinesShowTheirSeats(db, now, m, x);
    }
    forall x, y | x in lines && y in lines && x.seatId == y.seatId ensures x == y {
      SameSeatSameLine(db, now, m, x, y);
    }
  }

  lemma SeatMapsAgree(lines: set<SeatLine>, others: set<SeatLine>, db: Db, now: Time, m: string)
    requires IsSeatMap(lines, db, now, m) && IsSeatMap(others, db, now, m)
    ensures lines <= others
  {
    forall x | x in lines ensures x in others {
      var y :| y in others && y.seatId == x.seatId;
      SameSeatSameLine(db, now, m, x, y);
    }
  }

  /** In a shop with one active row per seat, ListSeats returns the seat map that is promised, and there is
      only one such. */
  lemma SeatMapIff(db: Db, now: Time, m: string, lines: set<SeatLine>)
    requires SeatUnique(db.bookings)
    ensures lines == SeatMap(db, now, m) <==> IsSeatMap(lines, db, now, m)
  {
    SeatMapIsOne(db, now, m);
    if IsSeatMap(lines, db, now, m) {
      SeatMapsAgree(lines, SeatMap(db, now, m), db, now, m);
      SeatMapsAgree(SeatMap(db, now, m), lines, db, now, m);
    }
  }

  datatype HistoryLine = HistoryLine(id: Id, seatId: string, status: Status, confirmedAt: Option<Time>, cancelledAt: Option<Time>, refund: Option<RefundStatus>)

  ghost predicate NewestRefund(rs: map<Id, Refund>, i: Id, r: Id) {
    && r in rs && rs[r].bookingId == i
    && forall q :: q in rs && rs[q].bookingId == i ==>
         rs[q].requestedAt < rs[r].requestedAt || (rs[q].requestedAt == rs[r].requestedAt && q <= r)
  }

  ghost function RefundShown(rs: map<Id, Refund>, i: Id): Option<RefundStatus> {
    if r :| NewestRefund(rs, i, r) then Some(rs[r].status) else None
  }

  lemma {:induction false} NewestOf(rs: map<Id, Refund>, ids: set<Id>) returns (r: Id)
    requires ids != {} && forall q :: q in ids ==> q in rs
    ensures r in ids && forall q :: q in ids ==>
              rs[q].requestedAt < rs[r].requestedAt || (rs[q].requestedAt == rs[r].requestedAt && q <= r)
    decreases ids
  {
    r :| r in ids;
    var rest := ids - {r};
    assert forall q :: q in ids ==> q == r || q in rest;
    if rest != {} {
      var p := NewestOf(rs, rest);
      if rs[r].requestedAt < rs[p].requestedAt || (rs[r].requestedAt == rs[p].requestedAt && r <= p) {
        r := p;
      }
    }
  }

  /** A booking's line shows the status of its newest refund, and none iff it has no refund. */
  lemma RefundShownIs(rs: map<Id, Refund>, i: Id)
    ensures RefundShown(rs, i).None? <==> forall r :: r in rs ==> rs[r].bookingId != i
    ensures forall r :: NewestRefund(rs, i, r) ==> RefundShown(rs, i) == Some(rs[r].status)
  {
    var ids := set r | r in rs && rs[r].bookingId == i;
    if ids != {} {
      var r := NewestOf(rs, ids);
      assert r in ids && NewestRefund(rs, i, r);
    } else {
      forall r | r in rs ensures rs[r].bookingId != i {
        assert r !in ids;
      }
    }
    forall r, q | NewestRefund(rs, i, r) && NewestRefund(rs, i, q) ensures r == q {
    }
  }

  ghost function HistoryOf(db: Db, m: string, b: string): set<HistoryLine> {
    set i | i in db.bookings && Listed(db.bookings[i], m, b)
      :: HistoryLine(i, db.bookings[i].seatId, db.bookings[i].status, db.bookings[i].confirmedAt,
                     db.bookings[i].cancelledAt, RefundShown(db.refunds, i))
  }
}
