/**
 Refund and outbox bookkeeping, key retention and all-or-nothing replacement, over whole runs
 of the atomic machine.
 */
module Conservation {
  import opened Options
  import opened Tables
  import opened Atomic
  import opened History
  import opened Reads
  import Config

  // ---------------------------------------------------------------- cancel, refund, event

  predicate SoldAndCancelled(r: Booking) {
    r.status == Cancelled && r.confirmedAt.Some?
  }

  ghost predicate RefundsFit(db: Db) {
    && (forall r :: r in db.refunds ==>
          db.refunds[r].bookingId in db.bookings && SoldAndCancelled(db.bookings[db.refunds[r].bookingId]))
    && (forall r, q :: r in db.refunds && q in db.refunds && db.refunds[r].bookingId == db.refunds[q].bookingId ==> r == q)
  }

  predicate CarriesRefund(e: Event, refunds: map<Id, Refund>) {
    && e.eventType == REFUND_REQUESTED && e.payload.RefundId?
    && e.payload.id in refunds && refunds[e.payload.id].bookingId == e.bookingId
  }

  ghost predicate EventsFit(db: Db) {
    && (forall e :: e in db.events ==> CarriesRefund(db.events[e], db.refunds))
    && (forall e, d :: e in db.events && d in db.events && db.events[e].bookingId == db.events[d].bookingId ==> e == d)
  }

  /** `r` and `e` are the refund and the event of booking `i`. */
  ghost predicate Paired(db: Db, i: Id, r: Id, e: Id) {
    && r in db.refunds && db.refunds[r].bookingId == i
    && e in db.events && db.events[e].bookingId == i && db.events[e].payload == RefundId(r)
  }

  ghost predicate Backed(db: Db) {
    forall i :: i in db.bookings && SoldAndCancelled(db.bookings[i]) ==> exists r, e :: Paired(db, i, r, e)
  }

  ghost predicate Books(db: Db) {
    RefundsFit(db) && EventsFit(db) && Backed(db)
  }

  /** Only CancelBooking turns a sold booking into a cancelled one; the others keep both facts. */
  lemma SoldAndCancelledStays(w: World, l: Label, w': World, i: Id)
    requires Inv(w) && Step(w, l, w') && i in w.db.bookings
    ensures i in w'.db.bookings
    ensures SoldAndCancelled(w.db.bookings[i]) ==> SoldAndCancelled(w'.db.bookings[i])
    ensures !(l.CancelCommitted? && l.id == i) && SoldAndCancelled(w'.db.bookings[i]) ==> SoldAndCancelled(w.db.bookings[i])
  {
    StepRewrites(w, l, w', i);
    assert WellShaped(w.db.bookings[i]);
  }

  lemma NewBookingIsNotSold(w: World, l: Label, w': World, i: Id)
    requires Step(w, l, w') && i in w'.db.bookings && i !in w.db.bookings
    ensures !SoldAndCancelled(w'.db.bookings[i])
  {
  }

  /** Nothing refers to a booking that is still confirmed. */
  lemma NoRefundYet(db: Db, i: Id)
    requires RefundsFit(db) && EventsFit(db) && i in db.bookings && db.bookings[i].status == Confirmed
    ensures forall r :: r in db.refunds ==> db.refunds[r].bookingId != i
    ensures forall e :: e in db.events ==> db.events[e].bookingId != i
  {
    forall e | e in db.events ensures db.events[e].bookingId != i {
      assert CarriesRefund(db.events[e], db.refunds);
    }
  }

  lemma CancelKeepsRefundsFit(db: Db, l: Label, db': Db)
    requires l.CancelCommitted? && RefundsFit(db) && l.id in db.bookings && db.bookings[l.id].confirmedAt.Some?
    requires forall r :: r in db.refunds ==> db.refunds[r].bookingId != l.id
    requires db'.bookings == db.bookings[l.id := CancelledRow(db.bookings[l.id], l.ts)]
    requires l.refundId !in db.refunds && db'.refunds == db.refunds[l.refundId := RequestedRefund(l.id, l.ts)]
    ensures RefundsFit(db')
  {
  }

  lemma CancelKeepsEventsFit(db: Db, l: Label, db': Db)
    requires l.CancelCommitted? && EventsFit(db)
    requires forall e :: e in db.events ==> db.events[e].bookingId != l.id
    requires l.refundId !in db.refunds && db'.refunds == db.refunds[l.refundId := RequestedRefund(l.id, l.ts)]
    requires l.eventId !in db.events && db'.events == db.events[l.eventId := RequestedEvent(l.id, l.refundId, l.ts)]
    ensures EventsFit(db')
  {
    forall e | e in db'.events ensures CarriesRefund(db'.events[e], db'.refunds) {
      assert e != l.eventId ==> CarriesRefund(db.events[e], db.refunds);
    }
  }

  lemma CancelKeepsBacked(w: World, l: Label, w': World)
    requires l.CancelCommitted? && Backed(w.db) && CancelStep(w, l, w')
    ensures Backed(w'.db)
  {
    forall i | i in w'.db.bookings && SoldAndCancelled(w'.db.bookings[i]) ensures exists r, e :: Paired(w'.db, i, r, e) {
      if i == l.id {
        assert Paired(w'.db, i, l.refundId, l.eventId);
      } else {
        var r, e :| Paired(w.db, i, r, e);
        assert Paired(w'.db, i, r, e);
      }
    }
  }

  lemma CancelKeepsBooks(w: World, l: Label, w': World)
    requires l.CancelCommitted? && Inv(w) && Books(w.db) && CancelStep(w, l, w')
    ensures Books(w'.db)
  {
    assert WellShaped(w.db.bookings[l.id]);
    NoRefundYet(w.db, l.id);
    CancelKeepsRefundsFit(w.db, l, w'.db);
    CancelKeepsEventsFit(w.db, l, w'.db);
    CancelKeepsBacked(w, l, w');
  }

  lemma WorkerKeepsBooks(w: World, w': World)
    requires Books(w.db) && WorkerStep(w, w')
    ensures Books(w'.db)
  {
    assert forall e :: e in w.db.events ==> CarriesRefund(w.db.events[e], w.db.refunds);
    forall i | i in w'.db.bookings && SoldAndCancelled(w'.db.bookings[i]) ensures exists r, e :: Paired(w'.db, i, r, e) {
      var r, e :| Paired(w.db, i, r, e);
      assert Paired(w'.db, i, r, e);
    }
  }

  lemma OtherStepKeepsBooks(w: World, l: Label, w': World)
    requires Inv(w) && Books(w.db) && Step(w, l, w') && !l.CancelCommitted?
    requires w'.db.refunds == w.db.refunds && w'.db.events == w.db.events
    ensures Books(w'.db)
  {
    forall r | r in w'.db.refunds
      ensures w'.db.refunds[r].bookingId in w'.db.bookings && SoldAndCancelled(w'.db.bookings[w'.db.refunds[r].bookingId])
    {
      SoldAndCancelledStays(w, l, w', w.db.refunds[r].bookingId);
    }
    forall i | i in w'.db.bookings && SoldAndCancelled(w'.db.bookings[i]) ensures exists r, e :: Paired(w'.db, i, r, e) {
      if i !in w.db.bookings {
        NewBookingIsNotSold(w, l, w', i);
      } else {
        SoldAndCancelledStays(w, l, w', i);
        var r, e :| Paired(w.db, i, r, e);
        assert Paired(w'.db, i, r, e);
      }
    }
  }

  lemma StepKeepsBooks(w: World, l: Label, w': World)
    requires Inv(w) && Books(w.db) && Step(w, l, w')
    ensures Books(w'.db)
  {
    match l
    case CancelCommitted(_, _, _, _, _) => CancelKeepsBooks(w, l, w');
    case WorkerWrote => WorkerKeepsBooks(w, w');
    case _ => OtherStepKeepsBooks(w, l, w');
  }

  lemma {:induction false} RunKeepsBooks(ws: seq<World>, ls: seq<Label>, k: nat)
    requires IsRun(ws, ls) && k < |ws|
    ensures Books(ws[k].db)
  {
    if k > 0 {
      RunKeepsBooks(ws, ls, k - 1);
      RunKeepsInv(ws, ls, k - 1);
      StepKeepsBooks(ws[k - 1], ls[k - 1], ws[k]);
    }
  }

  /** Exactly one refund row and exactly one event, carrying that refund's id, refer to booking `i`. */
  ghost predicate RefundedOnce(db: Db, i: Id) {
    exists r, e ::
      && Paired(db, i, r, e)
      && (forall q :: q in db.refunds && db.refunds[q].bookingId == i ==> q == r)
      && (forall d :: d in db.events && db.events[d].eventType == REFUND_REQUESTED && db.events[d].bookingId == i ==> d == e)
  }

  /** In every reachable state, a booking was sold and cancelled iff it has exactly one refund and one
      refund_requested event; any refund or event that names a booking names such a one. */
  lemma RefundsAreConserved(ws: seq<World>, ls: seq<Label>, k: nat, i: Id)
    requires IsRun(ws, ls) && k < |ws| && i in ws[k].db.bookings
    ensures SoldAndCancelled(ws[k].db.bookings[i]) <==> RefundedOnce(ws[k].db, i)
    ensures SoldAndCancelled(ws[k].db.bookings[i]) <==> exists r :: r in ws[k].db.refunds && ws[k].db.refunds[r].bookingId == i
  {
    RunKeepsBooks(ws, ls, k);
    var db := ws[k].db;
    if SoldAndCancelled(db.bookings[i]) {
      var r, e :| Paired(db, i, r, e);
    }
  }

  // ---------------------------------------------------------------- booking history

  /** The line shows its booking as the row is, with no refund iff it is confirmed, and otherwise with the
      status of its one refund. */
  ghost predicate ShowsItsBooking(x: HistoryLine, db: Db) {
    && x.id in db.bookings
    && x.seatId == db.bookings[x.id].seatId && x.status == db.bookings[x.id].status
    && x.confirmedAt == db.bookings[x.id].confirmedAt && x.cancelledAt == db.bookings[x.id].cancelledAt
    && (x.refund.None? <==> x.status == Confirmed)
    && (x.refund.Some? ==> exists r :: OnlyRefund(db.refunds, x.id, r) && x.refund.value == db.refunds[r].status)
  }

  ghost predicate OnlyRefund(rs: map<Id, Refund>, i: Id, r: Id) {
    r in rs && rs[r].bookingId == i && forall q :: q in rs && rs[q].bookingId == i ==> q == r
  }

  predicate BookedBy(r: Booking, m: string, b: string) {
    r.matchId == m && r.buyerId == b
  }

  /** Booking `i` was confirmed at or before state `k`. */
  ghost predicate EverConfirmed(ws: seq<World>, k: nat, i: Id)
    requires k < |ws|
  {
    exists j :: 0 <= j <= k && i in ws[j].db.bookings && ws[j].db.bookings[i].status == Confirmed
  }

  /** What the buyer is promised of a booking history at state `k`: exactly one line for each of the buyer's
      bookings in the match that was ever confirmed, that shows the booking as it is. */
  ghost predicate IsHistory(lines: set<HistoryLine>, ws: seq<World>, k: nat, m: string, b: string)
    requires k < |ws|
  {
    && (forall i | i in ws[k].db.bookings && BookedBy(ws[k].db.bookings[i], m, b) && EverConfirmed(ws, k, i) ::
          exists x :: x in lines && x.id == i)
    && (forall x, y :: x in lines && y in lines && x.id == y.id ==> x == y)
    && (forall x :: x in lines ==>
          && ShowsItsBooking(x, ws[k].db)
          && BookedBy(ws[k].db.bookings[x.id], m, b) && EverConfirmed(ws, k, x.id))
  }

  lemma ListedIffSold(ws: seq<World>, ls: seq<Label>, k: nat, i: Id, m: string, b: string)
    requires IsRun(ws, ls) && k < |ws| && i in ws[k].db.bookings
    ensures Listed(ws[k].db.bookings[i], m, b) <==>
            BookedBy(ws[k].db.bookings[i], m, b) && EverConfirmed(ws, k, i)
    ensures Listed(ws[k].db.bookings[i], m, b) ==> ws[k].db.bookings[i].status == Confirmed || SoldAndCancelled(ws[k].db.bookings[i])
  {
    RunKeepsInv(ws, ls, k);
    assert WellShaped(ws[k].db.bookings[i]);
    ConfirmedAtMeansSold(ws, ls, k, i);
  }

  lemma RefundOfLine(db: Db, i: Id)
    requires Books(db) && i in db.bookings && (db.bookings[i].status == Confirmed || SoldAndCancelled(db.bookings[i]))
    ensures RefundShown(db.refunds, i).None? <==> db.bookings[i].status == Confirmed
    ensures RefundShown(db.refunds, i).Some? ==>
              exists r :: OnlyRefund(db.refunds, i, r) && RefundShown(db.refunds, i).value == db.refunds[r].status
  {
    RefundShownIs(db.refunds, i);
    if SoldAndCancelled(db.bookings[i]) {
      var r, e :| Paired(db, i, r, e);
      assert OnlyRefund(db.refunds, i, r);
      assert NewestRefund(db.refunds, i, r);
    }
  }

  lemma LinesShowTheirBookings(ws: seq<World>, ls: seq<Label>, k: nat, m: string, b: string, x: HistoryLine)
    requires IsRun(ws, ls) && k < |ws| && x in HistoryOf(ws[k].db, m, b)
    ensures ShowsItsBooking(x, ws[k].db)
    ensures BookedBy(ws[k].db.bookings[x.id], m, b) && EverConfirmed(ws, k, x.id)
  {
    RunKeepsBooks(ws, ls, k);
    ListedIffSold(ws, ls, k, x.id, m, b);
    RefundOfLine(ws[k].db, x.id);
  }

  lemma HistoryIsOne(ws: seq<World>, ls: seq<Label>, k: nat, m: string, b: string)
    requires IsRun(ws, ls) && k < |ws|
    ensures IsHistory(HistoryOf(ws[k].db, m, b), ws, k, m, b)
  {
    var db, lines := ws[k].db, HistoryOf(ws[k].db, m, b);
    forall i | i in db.bookings && BookedBy(db.bookings[i], m, b) && EverConfirmed(ws, k, i)
      ensures exists x :: x in lines && x.id == i
    {
      ListedIffSold(ws, ls, k, i, m, b);
      var r := db.bookings[i];
      assert HistoryLine(i, r.seatId, r.status, r.confirmedAt, r.cancelledAt, RefundShown(db.refunds, i)) in lines;
    }
    forall x | x in lines
      ensures ShowsItsBooking(x, db) && BookedBy(db.bookings[x.id], m, b) && EverConfirmed(ws, k, x.id)
    {
      LinesShowTheirBookings(ws, ls, k, m, b, x);
    }
  }

  lemma SameBookingSameLine(db: Db, x: HistoryLine, y: HistoryLine)
    requires x.id == y.id && ShowsItsBooking(x, db) && ShowsItsBooking(y, db)
    ensures x == y
  {
  }

  lemma HistoriesAgree(lines: set<HistoryLine>, others: set<HistoryLine>, ws: seq<World>, k: nat, m: string, b: string)
    requires k < |ws| && IsHistory(lines, ws, k, m, b) && IsHistory(others, ws, k, m, b)
    ensures lines <= others
  {
    forall x | x in lines ensures x in others {
      assert ShowsItsBooking(x, ws[k].db);
      var y :| y in others && y.id == x.id;
      SameBookingSameLine(ws[k].db, x, y);
    }
  }

  /** In every state of every run ListBookings returns the history that is promised, and there is only one
      such. */
  lemma HistoryIff(ws: seq<World>, ls: seq<Label>, k: nat, m: string, b: string, lines: set<HistoryLine>)
    requires IsRun(ws, ls) && k < |ws|
    ensures lines == HistoryOf(ws[k].db, m, b) <==> IsHistory(lines, ws, k, m, b)
  {
    HistoryIsOne(ws, ls, k, m, b);
    if IsHistory(lines, ws, k, m, b) {
      HistoriesAgree(lines, HistoryOf(ws[k].db, m, b), ws, k, m, b);
      HistoriesAgree(HistoryOf(ws[k].db, m, b), lines, ws, k, m, b);
    }
  }

  // ---------------------------------------------------------------- pruning

  /** Holds are placed with the validated TTL and keys are pruned at the fixed retention. */
  predicate Configured(ls: seq<Label>) {
    forall k :: 0 <= k < |ls| ==>
      && (ls[k].HoldCommitted? ==> ls[k].ttl <= Config.MAX_TTL)
      && (ls[k].PruneCommitted? ==> ls[k].retention == Config.KEY_RETENTION)
  }

  ghost predicate KeyAges(w: World) {
    forall k |
      && k in w.db.keys && w.db.keys[k].bookingId in w.db.bookings
      && w.db.bookings[w.db.keys[k].bookingId].status == Held
      && w.db.bookings[w.db.keys[k].bookingId].holdExpiresAt.Some? ::
      w.db.bookings[w.db.keys[k].bookingId].holdExpiresAt.value <= w.db.keys[k].createdAt + Config.MAX_TTL
  }

  lemma StepKeepsKeyAges(w: World, l: Label, w': World)
    requires Inv(w) && KeyAges(w) && Step(w, l, w') && (l.HoldCommitted? ==> l.ttl <= Config.MAX_TTL)
    ensures KeyAges(w')
  {
    forall k | k in w'.db.keys && w'.db.keys[k].bookingId in w'.db.bookings
               && w'.db.bookings[w'.db.keys[k].bookingId].status == Held
               && w'.db.bookings[w'.db.keys[k].bookingId].holdExpiresAt.Some?
      ensures w'.db.bookings[w'.db.keys[k].bookingId].holdExpiresAt.value <= w'.db.keys[k].createdAt + Config.MAX_TTL
    {
      if !(l.HoldCommitted? && k == l.key) {
        assert k in w.db.keys && w'.db.keys[k] == w.db.keys[k];
        StepRewrites(w, l, w', w.db.keys[k].bookingId);
      }
    }
  }

  lemma {:induction false} RunKeepsKeyAges(ws: seq<World>, ls: seq<Label>, k: nat)
    requires IsRun(ws, ls) && Configured(ls) && k < |ws|
    ensures KeyAges(ws[k])
  {
    if k > 0 {
      RunKeepsKeyAges(ws, ls, k - 1);
      RunKeepsInv(ws, ls, k - 1);
      StepKeepsKeyAges(ws[k - 1], ls[k - 1], ws[k]);
    }
  }

  /** A pruned key maps to a confirmed booking or to one that can never be live again: a hold that
      expired at least 23 hours before, or an expired or cancelled row. */
  lemma PrunedKeysAreDead(ws: seq<World>, ls: seq<Label>, n: nat, k: string)
    requires IsRun(ws, ls) && Configured(ls) && n < |ls| && ls[n].PruneCommitted? && k in ls[n].pruned
    ensures k in ws[n].db.keys && ws[n].db.keys[k].bookingId in ws[n].db.bookings
    ensures var r := ws[n].db.bookings[ws[n].db.keys[k].bookingId];
            r.status == Confirmed || !Live(r, ls[n].ts - 23 * Config.MAX_TTL)
  {
    RunKeepsInv(ws, ls, n);
    RunKeepsKeyAges(ws, ls, n);
    assert Step(ws[n], ls[n], ws[n + 1]);
  }

  // ---------------------------------------------------------------- all or nothing

  /** A committed hold leaves the buyer exactly the new hold in that match, touches only rows its two
      UPDATEs name, and changes no row of another buyer that is live at its timestamp. */
  lemma ReplacementIsExact(w: World, l: Label, w': World, i: Id)
    requires l.HoldCommitted? && Inv(w) && HoldStep(w, l, w') && i in w'.db.bookings
    ensures HeldBy(w'.db.bookings[i], l.m, l.b) <==> i == l.id
    ensures i != l.id ==> i in w.db.bookings
    ensures i in w.db.bookings && w'.db.bookings[i] != w.db.bookings[i] ==>
              OtherHold(w.db.bookings[i], l.m, l.s, l.b) || StaleHold(w.db.bookings[i], l.m, l.s, l.ts)
    ensures i in w.db.bookings && w.db.bookings[i].buyerId != l.b && Live(w.db.bookings[i], l.ts) ==>
              w'.db.bookings[i] == w.db.bookings[i]
  {
    if i != l.id {
      assert !HeldBy(Cleared(w.db.bookings, l.m, l.s, l.b, l.ts)[i], l.m, l.b);
    }
  }
}
