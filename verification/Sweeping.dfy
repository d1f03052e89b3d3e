/**
 When a sweep can be told. Transactions, lookups and reads judge expiry by a `now()` of their own,
 which may lag the clock, so a sweep with a later `now()` can take a hold from under a call that
 would still have found it. A run with sweeps is compared with the run that has the same answers
 and no sweeps, row by row up to dead rows.
 */
module Sweeping {
  import opened Options
  import opened Tables
  import opened Reads
  import opened Atomic
  import opened History
  import I = Interleaving
  import Runs

  // ---------------------------------------------------------------- tables with and without sweeps

  /** Dead, and never sold. */
  predicate Gone(r: Booking) {
    r.confirmedAt.None? && (r.status == Expired || r.status == Cancelled)
  }

  /** `q` is the row with sweeps, `r` without: equal, or `q` is dead and `r` is dead or still held. */
  predicate Similar(q: Booking, r: Booking) {
    || q == r
    || (SameParams(r, q.matchId, q.seatId, q.buyerId) && Gone(q) && r.confirmedAt.None? && (r.status == Held || Gone(r)))
  }

  ghost predicate Under(bs: map<Id, Booking>, cs: map<Id, Booking>) {
    bs.Keys == cs.Keys && forall i :: i in bs ==> Similar(bs[i], cs[i])
  }

  /** A hold that is still there without the sweeps. */
  predicate Hidden(bs: map<Id, Booking>, cs: map<Id, Booking>, i: Id) {
    i in bs && i in cs && Gone(bs[i]) && cs[i].status == Held
  }

  function WithBookings(w: World, bs: map<Id, Booking>): World {
    w.(db := w.db.(bookings := bs))
  }

  /** `u` is `w` without the sweeps. */
  ghost predicate Beneath(w: World, u: World) {
    u == WithBookings(w, u.db.bookings) && Under(w.db.bookings, u.db.bookings)
  }

  // ---------------------------------------------------------------- calls that can tell

  /** The call is decided on the hold `i`, or on its seat, by a `now()` at which the hold was not over. */
  ghost predicate Concerns(u: World, l: Label, i: Id)
    requires i in u.db.bookings
  {
    var r := u.db.bookings[i];
    match l
    case ConfirmCommitted(ts, id, b) => id == i && r.buyerId == b && BeforeTtl(r, ts)
    case ConfirmRefused(ts, id, b) => id == i && r.buyerId == b && BeforeTtl(r, ts) && !BornSince(u, i, ts)
    case ReleaseCommitted(_, id, b) => id == i && r.buyerId == b
    case ReleaseRefused(ts, id, b) => id == i && r.buyerId == b && !BornSince(u, i, ts)
    case HoldCommitted(ts, m, s, _, _, _, _, _) => r.matchId == m && r.seatId == s && !PastTtl(r, ts)
    case InsertRejected(_, ts, m, s, _, _) => r.matchId == m && r.seatId == s && (!PastTtl(r, ts) || BornSince(u, i, ts))
    case KeyRejected(_, ts, m, s, _, _, _) => r.matchId == m && r.seatId == s && !PastTtl(r, ts)
    case Replayed(at, _, _, _, _, id) => id == i && BeforeTtl(r, at)
    case SeatRefused(_, _, at, m, s, b, key) =>
      key != "" && key in u.db.keys && u.db.keys[key].bookingId == i && SameParams(r, m, s, b) && BeforeTtl(r, at)
    case SeatsRead(at, m, _) => r.matchId == m && (m, r.seatId) in u.db.seats && BeforeTtl(r, at)
    case _ => false
  }

  ghost predicate TellTale(w: World, u: World, l: Label) {
    exists i :: Hidden(w.db.bookings, u.db.bookings, i) && Concerns(u, l, i)
  }

  // ---------------------------------------------------------------- what a step does to the bookings

  function Rewrite(bs: map<Id, Booking>, l: Label): map<Id, Booking> {
    match l
    case HoldCommitted(ts, m, s, b, ttl, _, _, id) => Cleared(bs, m, s, b, ts)[id := HeldRow(m, s, b, ts, ttl)]
    case ConfirmCommitted(ts, id, _) => if id in bs then bs[id := ConfirmedRow(bs[id], ts)] else bs
    case ReleaseCommitted(ts, id, _) => if id in bs then bs[id := CancelledRow(bs[id], ts)] else bs
    case CancelCommitted(ts, id, _, _, _) => if id in bs then bs[id := CancelledRow(bs[id], ts)] else bs
    case SweepCommitted(ts, ids) => Swept(bs, ids, ts)
    case _ => bs
  }

  lemma StepRewritesTo(w: World, l: Label, v: World)
    requires Step(w, l, v)
    ensures v.db.bookings == Rewrite(w.db.bookings, l)
  {
    if l.HoldCommitted? {
      assert HoldStep(w, l, v);
    }
  }

  predicate PointLabel(l: Label) {
    l.ConfirmCommitted? || l.ReleaseCommitted? || l.CancelCommitted?
  }

  lemma UnderStays(bs: map<Id, Booking>, cs: map<Id, Booking>, l: Label)
    requires Under(bs, cs) && (PointLabel(l) ==> l.id in bs && bs[l.id] == cs[l.id])
    ensures Under(Rewrite(bs, l), Rewrite(cs, l))
  {
    var bs', cs' := Rewrite(bs, l), Rewrite(cs, l);
    if l.HoldCommitted? {
      forall i | i in bs ensures Similar(Cleared(bs, l.m, l.s, l.b, l.ts)[i], Cleared(cs, l.m, l.s, l.b, l.ts)[i]) {
        ClearedRowStays(bs, cs, l, i);
      }
    } else {
      forall i | i in bs ensures Similar(bs'[i], cs'[i]) {
        RewrittenRowStays(bs, cs, l, i);
      }
    }
  }

  lemma RewrittenRowStays(bs: map<Id, Booking>, cs: map<Id, Booking>, l: Label, i: Id)
    requires Under(bs, cs) && !l.HoldCommitted? && i in bs
    requires PointLabel(l) ==> l.id in bs && bs[l.id] == cs[l.id]
    ensures i in Rewrite(bs, l) && i in Rewrite(cs, l) && Similar(Rewrite(bs, l)[i], Rewrite(cs, l)[i])
  {
    assert Similar(bs[i], cs[i]);
  }

  lemma ClearedRowStays(bs: map<Id, Booking>, cs: map<Id, Booking>, l: Label, i: Id)
    requires Under(bs, cs) && l.HoldCommitted? && i in bs
    ensures i in cs && Similar(Cleared(bs, l.m, l.s, l.b, l.ts)[i], Cleared(cs, l.m, l.s, l.b, l.ts)[i])
  {
    assert Similar(bs[i], cs[i]);
  }

  /** An active row with sweeps is the same without. */
  lemma ActiveIsSame(bs: map<Id, Booking>, cs: map<Id, Booking>, i: Id)
    requires Under(bs, cs) && i in bs
    ensures i in cs && (Active(bs[i]) ==> bs[i] == cs[i]) && (cs[i].status == Confirmed ==> bs[i] == cs[i])
    ensures cs[i].status == Held ==> bs[i] == cs[i] || Hidden(bs, cs, i)
  {
    assert Similar(bs[i], cs[i]);
  }

  // ---------------------------------------------------------------- reads

  ghost predicate NoneLiveHidden(bs: map<Id, Booking>, cs: map<Id, Booking>, seats: map<(string, string), string>, m: string, at: Time) {
    forall i :: Hidden(bs, cs, i) && cs[i].matchId == m && (m, cs[i].seatId) in seats ==> !BeforeTtl(cs[i], at)
  }

  lemma LiveRowIsSame(bs: map<Id, Booking>, cs: map<Id, Booking>, seats: map<(string, string), string>, m: string, at: Time, i: Id)
    requires Under(bs, cs) && NoneLiveHidden(bs, cs, seats, m, at) && i in bs
    ensures i in cs
    ensures bs[i].matchId == cs[i].matchId && bs[i].seatId == cs[i].seatId
    ensures cs[i].matchId == m && (m, cs[i].seatId) in seats && (Live(bs[i], at) || Live(cs[i], at)) ==> bs[i] == cs[i]
  {
    ActiveIsSame(bs, cs, i);
    assert Similar(bs[i], cs[i]);
  }

  lemma LiveAtIsSame(bs: map<Id, Booking>, cs: map<Id, Booking>, seats: map<(string, string), string>, m: string, at: Time, s: string)
    requires Under(bs, cs) && NoneLiveHidden(bs, cs, seats, m, at) && (m, s) in seats
    ensures LiveAt(bs, m, s, at) <==> LiveAt(cs, m, s, at)
  {
    if i :| i in bs && bs[i].matchId == m && bs[i].seatId == s && Live(bs[i], at) {
      LiveRowIsSame(bs, cs, seats, m, at, i);
      assert i in cs && cs[i].matchId == m && cs[i].seatId == s && Live(cs[i], at);
    }
    if i :| i in cs && cs[i].matchId == m && cs[i].seatId == s && Live(cs[i], at) {
      LiveRowIsSame(bs, cs, seats, m, at, i);
      assert i in bs && bs[i].matchId == m && bs[i].seatId == s && Live(bs[i], at);
    }
  }

  lemma SeatMapIsSame(w: World, u: World, at: Time, m: string)
    requires Beneath(w, u) && NoneLiveHidden(w.db.bookings, u.db.bookings, u.db.seats, m, at)
    ensures SeatMap(w.db, at, m) == SeatMap(u.db, at, m)
  {
    var bs, cs, seats := w.db.bookings, u.db.bookings, u.db.seats;
    forall i | i in bs
      ensures i in cs && bs[i].matchId == cs[i].matchId && bs[i].seatId == cs[i].seatId
      ensures cs[i].matchId == m && (m, cs[i].seatId) in seats && (Live(bs[i], at) || Live(cs[i], at)) ==> bs[i] == cs[i]
    {
      LiveRowIsSame(bs, cs, seats, m, at, i);
    }
    forall p | p in seats && p.0 == m ensures LiveAt(bs, m, p.1, at) <==> LiveAt(cs, m, p.1, at) {
      LiveAtIsSame(bs, cs, seats, m, at, p.1);
    }
    forall x ensures x in SeatMap(w.db, at, m) <==> x in SeatMap(u.db, at, m) {
    }
  }

  /** A live hold that the sweeps hid shows: no other row has its seat. */
  lemma SeatMapShowsHidden(w: World, u: World, at: Time, m: string, i: Id)
    requires Beneath(w, u) && SeatUnique(u.db.bookings) && Hidden(w.db.bookings, u.db.bookings, i)
    requires u.db.bookings[i].matchId == m && (m, u.db.bookings[i].seatId) in u.db.seats && BeforeTtl(u.db.bookings[i], at)
    ensures SeatMap(w.db, at, m) != SeatMap(u.db, at, m)
  {
    var bs, cs := w.db.bookings, u.db.bookings;
    var x := SeatLine(cs[i].seatId, u.db.seats[(m, cs[i].seatId)], Some(Held), cs[i].holdExpiresAt);
    assert Live(cs[i], at);
    assert x in SeatMap(u.db, at, m);
    if x in SeatMap(w.db, at, m) {
      var j :| j in bs && bs[j].matchId == m && Live(bs[j], at) && bs[j].seatId == cs[i].seatId;
      ActiveIsSame(bs, cs, j);
      assert ActiveAt(cs[j], cs[i].matchId, cs[i].seatId);
    }
  }

  lemma HistoryIsSame(w: World, u: World, m: string, b: string)
    requires Beneath(w, u)
    ensures HistoryOf(w.db, m, b) == HistoryOf(u.db, m, b)
  {
    var bs, cs := w.db.bookings, u.db.bookings;
    forall i | i in bs ensures i in cs && (Listed(bs[i], m, b) || Listed(cs[i], m, b) ==> bs[i] == cs[i]) {
      assert Similar(bs[i], cs[i]);
    }
    forall x ensures x in HistoryOf(w.db, m, b) <==> x in HistoryOf(u.db, m, b) {
    }
  }

  // ---------------------------------------------------------------- holds

  lemma BuyerNeedsSeat(bs: map<Id, Booking>, m: string, s: string, b: string, ts: Time)
    ensures BuyerHolds(Cleared(bs, m, s, b, ts), m, b) ==> SeatTaken(Cleared(bs, m, s, b, ts), m, s)
  {
    var cs := Cleared(bs, m, s, b, ts);
    if i :| i in cs && HeldBy(cs[i], m, b) {
      assert ActiveAt(cs[i], m, s);
    }
  }

  /** The seat is to be had without the sweeps iff it is with them and no hidden hold on it is in time. */
  lemma SeatTakenIff(bs: map<Id, Booking>, cs: map<Id, Booking>, m: string, s: string, b: string, ts: Time)
    requires Under(bs, cs)
    ensures SeatTaken(Cleared(cs, m, s, b, ts), m, s) <==>
            || SeatTaken(Cleared(bs, m, s, b, ts), m, s)
            || exists i :: Hidden(bs, cs, i) && cs[i].matchId == m && cs[i].seatId == s && !PastTtl(cs[i], ts)
  {
    var bs', cs' := Cleared(bs, m, s, b, ts), Cleared(cs, m, s, b, ts);
    if i :| i in cs' && ActiveAt(cs'[i], m, s) {
      ActiveIsSame(bs, cs, i);
      if bs[i] == cs[i] {
        assert ActiveAt(bs'[i], m, s);
      } else {
        assert Hidden(bs, cs, i) && !PastTtl(cs[i], ts);
      }
    }
    if i :| i in bs' && ActiveAt(bs'[i], m, s) {
      ActiveIsSame(bs, cs, i);
      assert ActiveAt(cs'[i], m, s);
    }
    if i :| Hidden(bs, cs, i) && cs[i].matchId == m && cs[i].seatId == s && !PastTtl(cs[i], ts) {
      assert ActiveAt(cs'[i], m, s);
    }
  }

  lemma ParamsAreSame(bs: map<Id, Booking>, cs: map<Id, Booking>, i: Id, m: string, s: string, b: string)
    requires Under(bs, cs) && i in bs
    ensures i in cs && (SameParams(bs[i], m, s, b) <==> SameParams(cs[i], m, s, b))
  {
    assert Similar(bs[i], cs[i]);
  }

  lemma HoldDown(w: World, u: World, l: Label, v: World)
    requires Beneath(w, u) && l.HoldCommitted? && HoldStep(w, l, v) && !TellTale(w, u, l)
    ensures HoldStep(u, l, WithBookings(v, Rewrite(u.db.bookings, l)))
  {
    var bs, cs := w.db.bookings, u.db.bookings;
    SeatTakenIff(bs, cs, l.m, l.s, l.b, l.ts);
    BuyerNeedsSeat(cs, l.m, l.s, l.b, l.ts);
    if l.stale.Some? {
      ParamsAreSame(bs, cs, l.stale.value, l.m, l.s, l.b);
    }
  }

  lemma HoldUp(w: World, u: World, l: Label, v: World)
    requires Beneath(w, u) && l.HoldCommitted? && HoldStep(u, l, v)
    ensures HoldStep(w, l, WithBookings(v, Rewrite(w.db.bookings, l)))
  {
    var bs, cs := w.db.bookings, u.db.bookings;
    SeatTakenIff(bs, cs, l.m, l.s, l.b, l.ts);
    BuyerNeedsSeat(bs, l.m, l.s, l.b, l.ts);
    if l.stale.Some? {
      ParamsAreSame(bs, cs, l.stale.value, l.m, l.s, l.b);
    }
  }

  // ---------------------------------------------------------------- answers that change nothing

  /** The answers to lookups. */
  predicate LookupAnswer(l: Label) {
    l.Replayed? || l.KeyReused? || l.SeatRefused?
  }

  lemma LookupDown(w: World, u: World, l: Label)
    requires Beneath(w, u) && LookupAnswer(l) && Step(w, l, w) && !TellTale(w, u, l)
    ensures Step(u, l, u)
  {
    var bs, cs := w.db.bookings, u.db.bookings;
    if l.key in u.db.keys && u.db.keys[l.key].bookingId in cs {
      var i := u.db.keys[l.key].bookingId;
      ActiveIsSame(bs, cs, i);
      ParamsAreSame(bs, cs, i, l.m, l.s, l.b);
      if l.SeatRefused? && l.key != "" {
        assert !ReplayOk(w, l.m, l.s, l.b, l.key, i, l.at);
        assert !(Hidden(bs, cs, i) && Concerns(u, l, i));
      }
    }
  }

  lemma LookupUp(w: World, u: World, l: Label)
    requires Beneath(w, u) && LookupAnswer(l) && Step(u, l, u) && !TellTale(w, u, l)
    ensures Step(w, l, w)
  {
    var bs, cs := w.db.bookings, u.db.bookings;
    if l.key in u.db.keys && u.db.keys[l.key].bookingId in cs {
      var i := u.db.keys[l.key].bookingId;
      ActiveIsSame(bs, cs, i);
      ParamsAreSame(bs, cs, i, l.m, l.s, l.b);
      if l.SeatRefused? && l.key != "" {
        assert !ReplayOk(u, l.m, l.s, l.b, l.key, i, l.at);
      } else if l.Replayed? {
        assert !(Hidden(bs, cs, i) && Concerns(u, l, i));
      }
    }
  }

  predicate RejectionAnswer(l: Label) {
    l.InsertRejected? || l.KeyRejected?
  }

  lemma RejectionDown(w: World, u: World, l: Label)
    requires Beneath(w, u) && RejectionAnswer(l) && Step(w, l, w) && !TellTale(w, u, l)
    ensures Step(u, l, u)
  {
    var bs, cs := w.db.bookings, u.db.bookings;
    if l.InsertRejected? {
      var i :| i in bs && ActiveAt(bs[i], l.m, l.s) && (!StaleHold(bs[i], l.m, l.s, l.ts) || BornSince(w, i, l.ts));
      ActiveIsSame(bs, cs, i);
    } else {
      forall i | i in cs && ActiveAt(cs[i], l.m, l.s) ensures StaleHold(cs[i], l.m, l.s, l.ts) {
        ActiveIsSame(bs, cs, i);
        assert !(Hidden(bs, cs, i) && Concerns(u, l, i));
      }
    }
  }

  lemma RejectionUp(w: World, u: World, l: Label)
    requires Beneath(w, u) && RejectionAnswer(l) && Step(u, l, u) && !TellTale(w, u, l)
    ensures Step(w, l, w)
  {
    var bs, cs := w.db.bookings, u.db.bookings;
    if l.InsertRejected? {
      var i :| i in cs && ActiveAt(cs[i], l.m, l.s) && (!StaleHold(cs[i], l.m, l.s, l.ts) || BornSince(u, i, l.ts));
      ActiveIsSame(bs, cs, i);
      assert !(Hidden(bs, cs, i) && Concerns(u, l, i));
    } else {
      forall i | i in bs && ActiveAt(bs[i], l.m, l.s) ensures StaleHold(bs[i], l.m, l.s, l.ts) {
        ActiveIsSame(bs, cs, i);
      }
    }
  }

  predicate PointAnswer(l: Label) {
    l.ConfirmRefused? || l.ReleaseRefused? || l.CancelRefused?
  }

  lemma PointDown(w: World, u: World, l: Label)
    requires Beneath(w, u) && PointAnswer(l) && Step(w, l, w) && !TellTale(w, u, l)
    ensures Step(u, l, u)
  {
    if l.id in u.db.bookings {
      ActiveIsSame(w.db.bookings, u.db.bookings, l.id);
      assert !(Hidden(w.db.bookings, u.db.bookings, l.id) && Concerns(u, l, l.id));
    }
  }

  lemma PointUp(w: World, u: World, l: Label)
    requires Beneath(w, u) && PointAnswer(l) && Step(u, l, u)
    ensures Step(w, l, w)
  {
    if l.id in u.db.bookings {
      ActiveIsSame(w.db.bookings, u.db.bookings, l.id);
    }
  }

  lemma ReadSame(w: World, u: World, l: Label)
    requires Beneath(w, u) && (l.SeatsRead? || l.HistoryRead?) && !TellTale(w, u, l)
    ensures Step(w, l, w) <==> Step(u, l, u)
  {
    if l.SeatsRead? {
      forall i | Hidden(w.db.bookings, u.db.bookings, i) && u.db.bookings[i].matchId == l.m && (l.m, u.db.bookings[i].seatId) in u.db.seats
        ensures !BeforeTtl(u.db.bookings[i], l.at)
      {
        assert !Concerns(u, l, i);
      }
      SeatMapIsSame(w, u, l.at, l.m);
    } else {
      HistoryIsSame(w, u, l.m, l.b);
    }
  }

  predicate Answer(l: Label) {
    LookupAnswer(l) || RejectionAnswer(l) || PointAnswer(l) || l.SeatsRead? || l.HistoryRead?
  }

  lemma AnswerChangesNothing(w: World, l: Label, v: World)
    requires Answer(l) && Step(w, l, v)
    ensures v == w
  {
  }

  lemma AnswerDown(w: World, u: World, l: Label)
    requires Beneath(w, u) && Answer(l) && Step(w, l, w) && !TellTale(w, u, l)
    ensures Step(u, l, u)
  {
    if LookupAnswer(l) {
      LookupDown(w, u, l);
    } else if RejectionAnswer(l) {
      RejectionDown(w, u, l);
    } else if PointAnswer(l) {
      PointDown(w, u, l);
    } else {
      ReadSame(w, u, l);
    }
  }

  lemma AnswerUp(w: World, u: World, l: Label)
    requires Beneath(w, u) && Answer(l) && Step(u, l, u) && !TellTale(w, u, l)
    ensures Step(w, l, w)
  {
    if LookupAnswer(l) {
      LookupUp(w, u, l);
    } else if RejectionAnswer(l) {
      RejectionUp(w, u, l);
    } else if PointAnswer(l) {
      PointUp(w, u, l);
    } else {
      ReadSame(w, u, l);
    }
  }

  // ---------------------------------------------------------------- one step

  lemma WriteDown(w: World, u: World, l: Label, v: World)
    requires Beneath(w, u) && Step(w, l, v) && !Answer(l) && !l.HoldCommitted?
    ensures Step(u, l, WithBookings(v, Rewrite(u.db.bookings, l)))
    ensures PointLabel(l) ==> l.id in w.db.bookings && w.db.bookings[l.id] == u.db.bookings[l.id]
  {
    if PointLabel(l) {
      ActiveIsSame(w.db.bookings, u.db.bookings, l.id);
    }
  }

  lemma WriteUp(w: World, u: World, l: Label, v: World)
    requires Beneath(w, u) && Step(u, l, v) && !Answer(l) && !l.HoldCommitted? && !TellTale(w, u, l)
    ensures Step(w, l, WithBookings(v, Rewrite(w.db.bookings, l)))
    ensures PointLabel(l) ==> l.id in w.db.bookings && w.db.bookings[l.id] == u.db.bookings[l.id]
  {
    if PointLabel(l) {
      ActiveIsSame(w.db.bookings, u.db.bookings, l.id);
      assert !(Hidden(w.db.bookings, u.db.bookings, l.id) && Concerns(u, l, l.id));
    }
  }

  lemma PairStays(w: World, u: World, l: Label, v: World)
    requires Beneath(w, u) && (PointLabel(l) ==> l.id in w.db.bookings && w.db.bookings[l.id] == u.db.bookings[l.id])
    requires v.db.bookings == Rewrite(w.db.bookings, l)
    ensures Beneath(v, WithBookings(v, Rewrite(u.db.bookings, l)))
  {
    UnderStays(w.db.bookings, u.db.bookings, l);
  }

  /** A step that does not tell is a step without the sweeps too. */
  lemma StepDown(w: World, u: World, l: Label, v: World)
    requires Beneath(w, u) && Step(w, l, v) && !TellTale(w, u, l)
    ensures Step(u, l, WithBookings(v, Rewrite(u.db.bookings, l)))
    ensures Beneath(v, WithBookings(v, Rewrite(u.db.bookings, l)))
  {
    StepRewritesTo(w, l, v);
    if Answer(l) {
      AnswerChangesNothing(w, l, v);
      AnswerDown(w, u, l);
    } else if l.HoldCommitted? {
      HoldDown(w, u, l, v);
    } else {
      WriteDown(w, u, l, v);
    }
    PairStays(w, u, l, v);
  }

  /** And the other way round. */
  lemma StepUp(w: World, u: World, l: Label, v: World)
    requires Beneath(w, u) && Step(u, l, v) && !TellTale(w, u, l)
    ensures Step(w, l, WithBookings(v, Rewrite(w.db.bookings, l)))
    ensures Beneath(WithBookings(v, Rewrite(w.db.bookings, l)), v)
  {
    StepRewritesTo(u, l, v);
    if Answer(l) {
      AnswerChangesNothing(u, l, v);
      AnswerUp(w, u, l);
    } else if l.HoldCommitted? {
      HoldUp(w, u, l, v);
    } else {
      WriteUp(w, u, l, v);
    }
    PairStays(w, u, l, WithBookings(v, Rewrite(w.db.bookings, l)));
  }

  /** A step that tells is not a step in both. */
  lemma TellTaleHoldStep(w: World, u: World, l: Label, i: Id)
    requires Beneath(w, u) && l.HoldCommitted? && Hidden(w.db.bookings, u.db.bookings, i) && Concerns(u, l, i)
    ensures SeatTaken(Cleared(u.db.bookings, l.m, l.s, l.b, l.ts), l.m, l.s)
  {
    SeatTakenIff(w.db.bookings, u.db.bookings, l.m, l.s, l.b, l.ts);
  }

  lemma TellTaleRejection(w: World, u: World, l: Label, i: Id)
    requires Beneath(w, u) && SeatUnique(u.db.bookings) && RejectionAnswer(l)
    requires Hidden(w.db.bookings, u.db.bookings, i) && Concerns(u, l, i)
    ensures !(Step(w, l, w) && Step(u, l, u))
  {
    var bs, cs := w.db.bookings, u.db.bookings;
    assert ActiveAt(cs[i], l.m, l.s);
    if l.InsertRejected? {
      forall j | j in bs ensures !ActiveAt(bs[j], l.m, l.s) {
        ActiveIsSame(bs, cs, j);
        assert j != i ==> !ActiveAt(cs[j], cs[i].matchId, cs[i].seatId);
      }
    }
  }

  lemma TellTaleIsOneSided(w: World, u: World, l: Label, v: World, v': World)
    requires Beneath(w, u) && SeatUnique(u.db.bookings) && TellTale(w, u, l) && Step(w, l, v)
    ensures !Step(u, l, v')
  {
    var i :| Hidden(w.db.bookings, u.db.bookings, i) && Concerns(u, l, i);
    if l.HoldCommitted? {
      TellTaleHoldStep(w, u, l, i);
    } else if RejectionAnswer(l) {
      TellTaleRejection(w, u, l, i);
    } else if l.SeatsRead? {
      SeatMapShowsHidden(w, u, l.at, l.m, i);
    } else {
      TellTaleOnRow(w, u, l, v, v', i);
    }
  }

  lemma TellTaleOnRow(w: World, u: World, l: Label, v: World, v': World, i: Id)
    requires Beneath(w, u) && Hidden(w.db.bookings, u.db.bookings, i) && Concerns(u, l, i) && Step(w, l, v)
    requires !l.HoldCommitted? && !RejectionAnswer(l) && !l.SeatsRead?
    ensures !Step(u, l, v')
  {
    if l.SeatRefused? {
      assert ReplayOk(u, l.m, l.s, l.b, l.key, i, l.at);
    }
  }

  /** What a sweep does to the pair if it is left out below. */
  lemma SweepHides(w: World, u: World, l: Label, v: World)
    requires Beneath(w, u) && Shaped(w.db.bookings) && l.SweepCommitted? && Step(w, l, v)
    ensures Beneath(v, u) && Step(u, Idle, u)
  {
    forall i | i in w.db.bookings ensures Similar(v.db.bookings[i], u.db.bookings[i]) {
      ExpiredIsSimilar(w.db.bookings[i], u.db.bookings[i]);
    }
  }

  lemma ExpiredIsSimilar(q: Booking, r: Booking)
    requires Similar(q, r) && WellShaped(q)
    ensures q.status == Held ==> Similar(ExpiredRow(q), r)
  {
  }

  // ---------------------------------------------------------------- whole runs

  /** The steps in `erased` are sweeps. */
  predicate AreSweeps(ls: seq<Label>, erased: set<nat>) {
    forall k :: k in erased ==> k < |ls| && ls[k].SweepCommitted?
  }

  /** The same labels with nothing happening in place of the erased sweeps. */
  ghost function Silenced(ls: seq<Label>, erased: set<nat>): (ms: seq<Label>)
    ensures |ms| == |ls| && forall k :: 0 <= k < |ls| ==> ms[k] == if k in erased then Idle else ls[k]
  {
    seq(|ls|, k requires 0 <= k < |ls| => if k in erased then Idle else ls[k])
  }

  /** The bookings that the labels `ms` leave after `k` steps from the table `bs`. */
  function BookingsAfter(bs: map<Id, Booking>, ms: seq<Label>, k: nat): map<Id, Booking>
    requires k <= |ms|
  {
    if k == 0 then bs else Rewrite(BookingsAfter(bs, ms, k - 1), ms[k - 1])
  }

  /** The run `ws` with its bookings as the labels `ms` leave them. */
  ghost function Companion(ws: seq<World>, ms: seq<Label>): (us: seq<World>)
    requires |ws| == |ms| + 1
    ensures |us| == |ws|
    ensures forall k :: 0 <= k < |us| ==> us[k] == WithBookings(ws[k], BookingsAfter(ws[0].db.bookings, ms, k))
  {
    seq(|ws|, k requires 0 <= k < |ws| => WithBookings(ws[k], BookingsAfter(ws[0].db.bookings, ms, k)))
  }

  /** Worlds that differ in their bookings only. */
  predicate SameElse(ws: seq<World>, us: seq<World>) {
    |us| == |ws| && forall k :: 0 <= k < |ws| ==> us[k] == WithBookings(ws[k], us[k].db.bookings)
  }

  lemma {:induction false} RunHasBookings(ws: seq<World>, ls: seq<Label>, k: nat)
    requires IsRun(ws, ls) && k < |ws|
    ensures ws[k].db.bookings == BookingsAfter(ws[0].db.bookings, ls, k)
  {
    if k > 0 {
      RunHasBookings(ws, ls, k - 1);
      StepRewritesTo(ws[k - 1], ls[k - 1], ws[k]);
    }
  }

  /** A run with given labels, and else like `ws`, is its companion. */
  lemma RunIsCompanion(ws: seq<World>, us: seq<World>, ms: seq<Label>)
    requires |ws| == |ms| + 1 && IsRun(us, ms) && SameElse(ws, us) && us[0] == ws[0]
    ensures us == Companion(ws, ms)
  {
    forall k | 0 <= k < |us| ensures us[k] == Companion(ws, ms)[k] {
      RunHasBookings(us, ms, k);
    }
  }

  /** No call from step to step can tell the run `ws`, with sweeps, from `us`, without. */
  ghost predicate Quiet(ws: seq<World>, us: seq<World>, ls: seq<Label>, erased: set<nat>)
    requires |ws| == |us| == |ls| + 1
  {
    forall k :: 0 <= k < |ls| && k !in erased ==> !TellTale(ws[k], us[k], ls[k])
  }

  /** ... in its first `n` steps. */
  ghost predicate QuietTo(ws: seq<World>, us: seq<World>, ls: seq<Label>, erased: set<nat>, n: nat)
    requires |ws| == |us| == |ls| + 1 && n <= |ls|
  {
    n > 0 ==> QuietTo(ws, us, ls, erased, n - 1) && (n - 1 in erased || !TellTale(ws[n - 1], us[n - 1], ls[n - 1]))
  }

  lemma {:induction false} QuietGoesTo(ws: seq<World>, us: seq<World>, ls: seq<Label>, erased: set<nat>, n: nat)
    requires |ws| == |us| == |ls| + 1 && n <= |ls| && Quiet(ws, us, ls, erased)
    ensures QuietTo(ws, us, ls, erased, n)
  {
    if n > 0 {
      QuietGoesTo(ws, us, ls, erased, n - 1);
    }
  }

  lemma {:induction false} QuietToAt(ws: seq<World>, us: seq<World>, ls: seq<Label>, erased: set<nat>, n: nat, k: nat)
    requires |ws| == |us| == |ls| + 1 && k < n <= |ls| && QuietTo(ws, us, ls, erased, n) && k !in erased
    ensures !TellTale(ws[k], us[k], ls[k])
    decreases n
  {
    if k < n - 1 {
      QuietToAt(ws, us, ls, erased, n - 1, k);
    }
  }

  lemma QuietToTheEnd(ws: seq<World>, us: seq<World>, ls: seq<Label>, erased: set<nat>)
    requires |ws| == |us| == |ls| + 1 && QuietTo(ws, us, ls, erased, |ls|)
    ensures Quiet(ws, us, ls, erased)
  {
    forall k | 0 <= k < |ls| && k !in erased ensures !TellTale(ws[k], us[k], ls[k]) {
      QuietToAt(ws, us, ls, erased, |ls|, k);
    }
  }

  lemma SilencedIsJustified(ls: seq<Label>, erased: set<nat>)
    requires AreSweeps(ls, erased)
    ensures Justified(ls) <==> Justified(Silenced(ls, erased))
  {
    var ms := Silenced(ls, erased);
    forall n | 0 <= n < |ls| && ls[n].SeatRefused? ensures forall p :: RefusedFor(ls, p, n) <==> RefusedFor(ms, p, n) {
    }
  }

  /** Up to step `n` the erased run goes along, if no call told before. */
  lemma {:induction false} GoesAlong(ws: seq<World>, ls: seq<Label>, erased: set<nat>, us: seq<World>, n: nat)
    requires IsRun(ws, ls) && AreSweeps(ls, erased) && us == Companion(ws, Silenced(ls, erased)) && n < |ws|
    requires n <= |ls| && QuietTo(ws, us, ls, erased, n)
    ensures Beneath(ws[n], us[n]) && Inv(us[n])
    ensures n > 0 ==> Step(us[n - 1], Silenced(ls, erased)[n - 1], us[n])
  {
    if n == 0 {
      RunKeepsInv(ws, ls, 0);
      assert us[0] == ws[0];
    } else {
      GoesAlong(ws, ls, erased, us, n - 1);
      RunKeepsInv(ws, ls, n - 1);
      assert Step(ws[n - 1], ls[n - 1], ws[n]);
      if n - 1 in erased {
        SweepHides(ws[n - 1], us[n - 1], ls[n - 1], ws[n]);
      } else {
        StepDown(ws[n - 1], us[n - 1], ls[n - 1], ws[n]);
      }
      StepKeepsInv(us[n - 1], Silenced(ls, erased)[n - 1], us[n]);
    }
  }

  /** An erased run that exists has no call that tells. */
  lemma {:induction false} ErasedRunIsQuiet(ws: seq<World>, ls: seq<Label>, erased: set<nat>, us: seq<World>, n: nat)
    requires IsRun(ws, ls) && AreSweeps(ls, erased) && us == Companion(ws, Silenced(ls, erased))
    requires IsRun(us, Silenced(ls, erased)) && n <= |ls|
    ensures QuietTo(ws, us, ls, erased, n)
  {
    if n > 0 {
      ErasedRunIsQuiet(ws, ls, erased, us, n - 1);
      ErasedStepIsQuiet(ws, ls, erased, us, n - 1);
    }
  }

  lemma ErasedStepIsQuiet(ws: seq<World>, ls: seq<Label>, erased: set<nat>, us: seq<World>, n: nat)
    requires IsRun(ws, ls) && AreSweeps(ls, erased) && us == Companion(ws, Silenced(ls, erased)) && n < |ls|
    requires IsRun(us, Silenced(ls, erased)) && QuietTo(ws, us, ls, erased, n)
    ensures n !in erased ==> !TellTale(ws[n], us[n], ls[n])
  {
    assert Beneath(ws[n], us[n]) && SeatUnique(us[n].db.bookings) by {
      GoesAlong(ws, ls, erased, us, n);
    }
    StepOf(ws, ls, n);
    StepOf(us, Silenced(ls, erased), n);
    DoesNotTell(ws, ls, erased, us, n);
  }

  lemma DoesNotTell(ws: seq<World>, ls: seq<Label>, erased: set<nat>, us: seq<World>, k: nat)
    requires |ws| == |us| == |ls| + 1 && k < |ls| && Beneath(ws[k], us[k]) && SeatUnique(us[k].db.bookings)
    requires Step(ws[k], ls[k], ws[k + 1]) && (k !in erased ==> Step(us[k], ls[k], us[k + 1]))
    ensures k !in erased ==> !TellTale(ws[k], us[k], ls[k])
  {
    if k !in erased && TellTale(ws[k], us[k], ls[k]) {
      TellTaleIsOneSided(ws[k], us[k], ls[k], ws[k + 1], us[k + 1]);
    }
  }

  /** The sweeps `erased` can be left out: some run has the same answers, and the same of everything but the
      bookings, from the same start. */
  ghost predicate Erasable(ws: seq<World>, ls: seq<Label>, erased: set<nat>) {
    exists us :: IsRun(us, Silenced(ls, erased)) && SameElse(ws, us) && us[0] == ws[0]
  }

  lemma QuietIsRun(ws: seq<World>, ls: seq<Label>, erased: set<nat>, us: seq<World>)
    requires IsRun(ws, ls) && AreSweeps(ls, erased) && us == Companion(ws, Silenced(ls, erased)) && Quiet(ws, us, ls, erased)
    ensures IsRun(us, Silenced(ls, erased)) && forall k :: 0 <= k < |ws| ==> Beneath(ws[k], us[k])
  {
    var ms := Silenced(ls, erased);
    assert us[0] == ws[0];
    forall k | 0 <= k < |ms| ensures Step(us[k], ms[k], us[k + 1]) {
      QuietGoesTo(ws, us, ls, erased, k + 1);
      GoesAlong(ws, ls, erased, us, k + 1);
    }
    forall k | 0 <= k < |ws| ensures Beneath(ws[k], us[k]) {
      QuietGoesTo(ws, us, ls, erased, k);
      GoesAlong(ws, ls, erased, us, k);
    }
    SilencedIsJustified(ls, erased);
  }

  /** Over every run: sweeps can be erased, with every other answer kept, iff no call is decided on a hold
      they hid, or on its seat, by a `now()` at which that hold was not over; the two runs then agree up
      to dead rows throughout. A release is decided on the hold whatever its `now()`. */
  lemma ErasingSweepsIff(ws: seq<World>, ls: seq<Label>, erased: set<nat>)
    requires IsRun(ws, ls) && AreSweeps(ls, erased)
    ensures Erasable(ws, ls, erased) <==> Quiet(ws, Companion(ws, Silenced(ls, erased)), ls, erased)
    ensures Erasable(ws, ls, erased) ==>
              forall k :: 0 <= k < |ws| ==> Beneath(ws[k], Companion(ws, Silenced(ls, erased))[k])
  {
    var us := Companion(ws, Silenced(ls, erased));
    if Quiet(ws, us, ls, erased) {
      QuietIsRun(ws, ls, erased, us);
    }
    if Erasable(ws, ls, erased) {
      var vs :| IsRun(vs, Silenced(ls, erased)) && SameElse(ws, vs) && vs[0] == ws[0];
      RunIsCompanion(ws, vs, Silenced(ls, erased));
      ErasedRunIsQuiet(ws, ls, erased, us, |ls|);
      QuietToTheEnd(ws, us, ls, erased);
      QuietIsRun(ws, ls, erased, us);
    }
  }

  // ---------------------------------------------------------------- putting sweeps in

  /** The sweeps to put in have timestamps the clock has reached. */
  ghost predicate AreDue(us: seq<World>, ls: seq<Label>, added: set<nat>)
    requires |us| == |ls| + 1
  {
    AreSweeps(ls, added) && forall k :: k in added ==> ls[k].ts <= us[k].clock
  }

  lemma SweepIsAdded(w: World, u: World, l: Label)
    requires Beneath(w, u) && Shaped(w.db.bookings) && l.SweepCommitted? && l.ts <= u.clock
    ensures Step(w, l, WithBookings(u, Rewrite(w.db.bookings, l))) && Beneath(WithBookings(u, Rewrite(w.db.bookings, l)), u)
  {
    SweepHides(w, u, l, WithBookings(u, Rewrite(w.db.bookings, l)));
  }

  lemma {:induction false} GoesAlongUp(us: seq<World>, ls: seq<Label>, added: set<nat>, ws: seq<World>, n: nat)
    requires |us| == |ls| + 1 && IsRun(us, Silenced(ls, added)) && AreDue(us, ls, added) && ws == Companion(us, ls) && n < |us|
    requires n <= |ls| && QuietTo(ws, us, ls, added, n)
    ensures Beneath(ws[n], us[n]) && Inv(ws[n]) && Inv(us[n])
    ensures n > 0 ==> Step(ws[n - 1], ls[n - 1], ws[n])
  {
    RunKeepsInv(us, Silenced(ls, added), n);
    if n == 0 {
      assert us[0] == ws[0];
    } else {
      GoesAlongUp(us, ls, added, ws, n - 1);
      assert Step(us[n - 1], Silenced(ls, added)[n - 1], us[n]);
      if n - 1 in added {
        SweepIsAdded(ws[n - 1], us[n - 1], ls[n - 1]);
      } else {
        StepUp(ws[n - 1], us[n - 1], ls[n - 1], us[n]);
      }
      StepKeepsInv(ws[n - 1], ls[n - 1], ws[n]);
    }
  }

  lemma {:induction false} SweptRunIsQuiet(us: seq<World>, ls: seq<Label>, added: set<nat>, ws: seq<World>, n: nat)
    requires |us| == |ls| + 1 && IsRun(us, Silenced(ls, added)) && AreDue(us, ls, added) && ws == Companion(us, ls)
    requires IsRun(ws, ls) && n <= |ls|
    ensures QuietTo(ws, us, ls, added, n)
  {
    if n > 0 {
      SweptRunIsQuiet(us, ls, added, ws, n - 1);
      SweptStepIsQuiet(us, ls, added, ws, n - 1);
    }
  }

  lemma SweptStepIsQuiet(us: seq<World>, ls: seq<Label>, added: set<nat>, ws: seq<World>, n: nat)
    requires |us| == |ls| + 1 && IsRun(us, Silenced(ls, added)) && AreDue(us, ls, added) && ws == Companion(us, ls) && n < |ls|
    requires IsRun(ws, ls) && QuietTo(ws, us, ls, added, n)
    ensures n !in added ==> !TellTale(ws[n], us[n], ls[n])
  {
    assert Beneath(ws[n], us[n]) && SeatUnique(us[n].db.bookings) by {
      GoesAlongUp(us, ls, added, ws, n);
    }
    StepOf(ws, ls, n);
    StepOf(us, Silenced(ls, added), n);
    DoesNotTell(ws, ls, added, us, n);
  }

  lemma StepOf(ws: seq<World>, ls: seq<Label>, k: nat)
    requires IsRun(ws, ls) && k < |ls|
    ensures Step(ws[k], ls[k], ws[k + 1])
  {
  }

  /** The sweeps `added` can be put in. */
  ghost predicate Insertable(us: seq<World>, ls: seq<Label>, added: set<nat>) {
    exists ws :: IsRun(ws, ls) && SameElse(us, ws) && ws[0] == us[0]
  }

  lemma QuietIsSweptRun(us: seq<World>, ls: seq<Label>, added: set<nat>, ws: seq<World>)
    requires |us| == |ls| + 1 && IsRun(us, Silenced(ls, added)) && AreDue(us, ls, added)
    requires ws == Companion(us, ls) && Quiet(ws, us, ls, added)
    ensures IsRun(ws, ls)
  {
    assert us[0] == ws[0];
    forall k | 0 <= k < |ls| ensures Step(ws[k], ls[k], ws[k + 1]) {
      QuietGoesTo(ws, us, ls, added, k + 1);
      GoesAlongUp(us, ls, added, ws, k + 1);
    }
    SilencedIsJustified(ls, added);
  }

  /** Over every run: sweeps of any batches can be put in anywhere, with every answer kept, iff no call is
      decided on a hold they hide, or on its seat, by a `now()` at which that hold was not over. */
  lemma InsertingSweepsIff(us: seq<World>, ls: seq<Label>, added: set<nat>)
    requires |us| == |ls| + 1 && IsRun(us, Silenced(ls, added)) && AreDue(us, ls, added)
    ensures Insertable(us, ls, added) <==> Quiet(Companion(us, ls), us, ls, added)
  {
    var ws := Companion(us, ls);
    if Quiet(ws, us, ls, added) {
      QuietIsSweptRun(us, ls, added, ws);
    }
    if Insertable(us, ls, added) {
      var vs :| IsRun(vs, ls) && SameElse(us, vs) && vs[0] == us[0];
      RunIsCompanion(us, vs, ls);
      SweptRunIsQuiet(us, ls, added, ws, |ls|);
      QuietToTheEnd(ws, us, ls, added);
    }
  }

  // ---------------------------------------------------------------- calls that start after the sweep did

  /** The `now()` by which a call judges expiry. */
  function StampOf(l: Label): Option<Time> {
    match l
    case HoldCommitted(ts, _, _, _, _, _, _, _) => Some(ts)
    case KeyRejected(_, ts, _, _, _, _, _) => Some(ts)
    case ConfirmCommitted(ts, _, _) => Some(ts)
    case ConfirmRefused(ts, _, _) => Some(ts)
    case Replayed(at, _, _, _, _, _) => Some(at)
    case SeatRefused(_, _, at, _, _, _, _) => Some(at)
    case SeatsRead(at, _, _) => Some(at)
    case _ => None
  }

  /** Calls decided after an erased sweep drew their `now()` no earlier than it did, and release nothing
      it took. */
  ghost predicate Prompt(ls: seq<Label>, erased: set<nat>)
    requires AreSweeps(ls, erased)
  {
    forall n, k | n in erased && n < k < |ls| && k !in erased ::
      && (StampOf(ls[k]).Some? ==> ls[n].ts <= StampOf(ls[k]).value)
      && (ls[k].ReleaseCommitted? || ls[k].ReleaseRefused? ==> ls[k].id !in ls[n].ids)
  }

  /** Hold `i` was over by the sweep at step `p`, which took it. */
  ghost predicate TakenAt(us: seq<World>, ls: seq<Label>, erased: set<nat>, p: nat, n: nat, i: Id)
    requires AreSweeps(ls, erased) && n < |us|
  {
    p in erased && p < n && i in ls[p].ids && i in us[n].db.bookings && PastTtl(us[n].db.bookings[i], ls[p].ts)
  }

  lemma NothingHidesAlone(bs: map<Id, Booking>, cs: map<Id, Booking>, l: Label, i: Id)
    requires Under(bs, cs) && (PointLabel(l) ==> l.id in bs && bs[l.id] == cs[l.id])
    requires Hidden(Rewrite(bs, l), Rewrite(cs, l), i)
    ensures Hidden(bs, cs, i) && Rewrite(cs, l)[i] == cs[i]
  {
    if i in bs {
      assert Similar(bs[i], cs[i]);
    }
  }

  /** If hold `i` is hidden after step `n`, it was hidden before as the same row, or the erased sweep at that
      step takes it. */
  ghost predicate HidesOrTakes(ws: seq<World>, us: seq<World>, ls: seq<Label>, erased: set<nat>, n: nat, i: Id)
    requires |ws| == |us| == |ls| + 1 && AreSweeps(ls, erased) && n < |ls|
  {
    Hidden(ws[n + 1].db.bookings, us[n + 1].db.bookings, i) ==>
      if Hidden(ws[n].db.bookings, us[n].db.bookings, i) then us[n + 1].db.bookings[i] == us[n].db.bookings[i]
      else n in erased && i in ls[n].ids && PastTtl(us[n + 1].db.bookings[i], ls[n].ts)
  }

  lemma StepHidesOrTakes(ws: seq<World>, ls: seq<Label>, erased: set<nat>, us: seq<World>, n: nat, i: Id)
    requires IsRun(ws, ls) && AreSweeps(ls, erased) && us == Companion(ws, Silenced(ls, erased)) && n < |ls|
    requires QuietTo(ws, us, ls, erased, n + 1)
    ensures HidesOrTakes(ws, us, ls, erased, n, i)
  {
    if Hidden(ws[n + 1].db.bookings, us[n + 1].db.bookings, i) {
      var l := ls[n];
      GoesAlong(ws, ls, erased, us, n);
      StepOf(ws, ls, n);
      StepRewritesTo(ws[n], l, ws[n + 1]);
      if n in erased {
        assert us[n + 1].db.bookings == us[n].db.bookings;
        if !Hidden(ws[n].db.bookings, us[n].db.bookings, i) {
          ActiveIsSame(ws[n].db.bookings, us[n].db.bookings, i);
        }
      } else {
        PointRowsAreSame(ws[n], us[n], l, ws[n + 1]);
        NothingHidesAlone(ws[n].db.bookings, us[n].db.bookings, l, i);
      }
    }
  }

  lemma {:induction false} HiddenSince(ws: seq<World>, us: seq<World>, ls: seq<Label>, erased: set<nat>, n: nat, i: Id)
      returns (p: nat)
    requires |ws| == |us| == |ls| + 1 && AreSweeps(ls, erased) && n < |ws| && ws[0].db.bookings == map[]
    requires forall q :: 0 <= q < n ==> HidesOrTakes(ws, us, ls, erased, q, i)
    requires Hidden(ws[n].db.bookings, us[n].db.bookings, i)
    ensures TakenAt(us, ls, erased, p, n, i)
  {
    assert HidesOrTakes(ws, us, ls, erased, n - 1, i);
    if Hidden(ws[n - 1].db.bookings, us[n - 1].db.bookings, i) {
      p := HiddenSince(ws, us, ls, erased, n - 1, i);
    } else {
      p := n - 1;
    }
  }

  lemma {:induction false} QuietBefore(ws: seq<World>, us: seq<World>, ls: seq<Label>, erased: set<nat>, q: nat, n: nat)
    requires |ws| == |us| == |ls| + 1 && q <= n <= |ls| && QuietTo(ws, us, ls, erased, n)
    ensures QuietTo(ws, us, ls, erased, q)
    decreases n
  {
    if q < n {
      QuietBefore(ws, us, ls, erased, q, n - 1);
    }
  }

  lemma HiddenWasTaken(ws: seq<World>, ls: seq<Label>, erased: set<nat>, us: seq<World>, n: nat, i: Id) returns (p: nat)
    requires IsRun(ws, ls) && AreSweeps(ls, erased) && us == Companion(ws, Silenced(ls, erased)) && n <= |ls|
    requires QuietTo(ws, us, ls, erased, n) && Hidden(ws[n].db.bookings, us[n].db.bookings, i)
    ensures TakenAt(us, ls, erased, p, n, i)
  {
    forall q | 0 <= q < n ensures HidesOrTakes(ws, us, ls, erased, q, i) {
      QuietBefore(ws, us, ls, erased, q + 1, n);
      StepHidesOrTakes(ws, ls, erased, us, q, i);
    }
    p := HiddenSince(ws, us, ls, erased, n, i);
  }

  lemma PointRowsAreSame(w: World, u: World, l: Label, v: World)
    requires Beneath(w, u) && Step(w, l, v)
    ensures PointLabel(l) ==> l.id in w.db.bookings && w.db.bookings[l.id] == u.db.bookings[l.id]
  {
    if PointLabel(l) {
      ActiveIsSame(w.db.bookings, u.db.bookings, l.id);
    }
  }

  lemma OccupiedSeatHidesNothing(w: World, u: World, l: Label, i: Id)
    requires Beneath(w, u) && SeatUnique(u.db.bookings) && l.InsertRejected? && Step(w, l, w) && Hidden(w.db.bookings, u.db.bookings, i)
    ensures !Concerns(u, l, i)
  {
    var bs, cs := w.db.bookings, u.db.bookings;
    var j :| j in bs && ActiveAt(bs[j], l.m, l.s);
    ActiveIsSame(bs, cs, j);
    assert j != i;
    assert Active(cs[i]) && !ActiveAt(cs[j], cs[i].matchId, cs[i].seatId);
  }

  lemma PromptDoesNotTell(w: World, u: World, l: Label, v: World, i: Id, sweep: Label)
    requires Beneath(w, u) && SeatUnique(u.db.bookings) && Step(w, l, v) && Hidden(w.db.bookings, u.db.bookings, i)
    requires sweep.SweepCommitted? && i in sweep.ids && PastTtl(u.db.bookings[i], sweep.ts)
    requires StampOf(l).Some? ==> sweep.ts <= StampOf(l).value
    requires l.ReleaseCommitted? || l.ReleaseRefused? ==> l.id !in sweep.ids
    ensures !Concerns(u, l, i)
  {
    if l.InsertRejected? {
      OccupiedSeatHidesNothing(w, u, l, i);
    }
  }

  lemma QuietNext(ws: seq<World>, us: seq<World>, ls: seq<Label>, erased: set<nat>, n: nat)
    requires |ws| == |us| == |ls| + 1 && n < |ls| && QuietTo(ws, us, ls, erased, n)
    requires n in erased || !TellTale(ws[n], us[n], ls[n])
    ensures QuietTo(ws, us, ls, erased, n + 1)
  {
  }

  lemma {:induction false} PromptIsQuiet(ws: seq<World>, ls: seq<Label>, erased: set<nat>, us: seq<World>, n: nat)
    requires IsRun(ws, ls) && AreSweeps(ls, erased) && us == Companion(ws, Silenced(ls, erased)) && Prompt(ls, erased) && n <= |ls|
    ensures QuietTo(ws, us, ls, erased, n)
  {
    if n > 0 {
      PromptIsQuiet(ws, ls, erased, us, n - 1);
      if n - 1 !in erased {
        PromptStepIsQuiet(ws, ls, erased, us, n - 1);
      }
      QuietNext(ws, us, ls, erased, n - 1);
    }
  }

  lemma PromptStepIsQuiet(ws: seq<World>, ls: seq<Label>, erased: set<nat>, us: seq<World>, k: nat)
    requires IsRun(ws, ls) && AreSweeps(ls, erased) && us == Companion(ws, Silenced(ls, erased)) && k < |ls| && Prompt(ls, erased)
    requires k !in erased && QuietTo(ws, us, ls, erased, k)
    ensures !TellTale(ws[k], us[k], ls[k])
  {
    assert Beneath(ws[k], us[k]) && SeatUnique(us[k].db.bookings) by {
      GoesAlong(ws, ls, erased, us, k);
    }
    StepOf(ws, ls, k);
    forall i | Hidden(ws[k].db.bookings, us[k].db.bookings, i) ensures !Concerns(us[k], ls[k], i) {
      var p := HiddenWasTaken(ws, ls, erased, us, k, i);
      PromptDoesNotTell(ws[k], us[k], ls[k], ws[k + 1], i, ls[p]);
    }
  }

  /** Sweeps are silent for every call that draws its `now()` no earlier than they did, releases of what
      they took apart: whichever of them are erased, every other answer stays. */
  lemma SweepsAreSilent(ws: seq<World>, ls: seq<Label>, erased: set<nat>)
    requires IsRun(ws, ls) && AreSweeps(ls, erased) && Prompt(ls, erased)
    ensures Erasable(ws, ls, erased)
  {
    var us := Companion(ws, Silenced(ls, erased));
    PromptIsQuiet(ws, ls, erased, us, |ls|);
    QuietToTheEnd(ws, us, ls, erased);
    ErasingSweepsIff(ws, ls, erased);
  }

  /** The same over every interleaving of statements, by its committed states and its answers. */
  lemma InterleavedSweepsIff(ss: seq<I.State>, mvs: seq<I.Move>, erased: set<nat>)
    requires Runs.IsRun(ss, mvs) && AreSweeps(Runs.Labels(ss, mvs), erased)
    ensures var ws, ls := Runs.Worlds(ss), Runs.Labels(ss, mvs);
            && (Erasable(ws, ls, erased) <==> Quiet(ws, Companion(ws, Silenced(ls, erased)), ls, erased))
            && (Prompt(ls, erased) ==> Erasable(ws, ls, erased))
  {
    var ws, ls := Runs.Worlds(ss), Runs.Labels(ss, mvs);
    Runs.InterleavingsRefine(ss, mvs);
    ErasingSweepsIff(ws, ls, erased);
    if Prompt(ls, erased) {
      SweepsAreSilent(ws, ls, erased);
    }
  }
}
