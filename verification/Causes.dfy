/**
 Why a row is as it is: over every run, each new booking, each change of a booking, each change of a key
 and each refusal of a confirm, release or cancel has one of a few causes, stated here column by column.
 Theorems over atomic runs are carried over to every interleaving at the end.
 */
module Causes {
  import opened Options
  import opened Tables
  import opened Atomic
  import opened History
  import C = Conservation
  import I = Interleaving
  import Runs

  // ---------------------------------------------------------------- changes of a booking

  predicate Outlives(r: Booking, ts: Time) {
    r.holdExpiresAt.Some? && ts < r.holdExpiresAt.value
  }

  predicate Outlived(r: Booking, ts: Time) {
    r.holdExpiresAt.Some? && r.holdExpiresAt.value < ts
  }

  /** The buyer confirmed the hold before it expired. */
  predicate ByConfirm(l: Label, i: Id, r: Booking, r': Booking) {
    && l.ConfirmCommitted? && l.id == i && l.b == r.buyerId && r.status == Held && Outlives(r, l.ts)
    && r' == Booking(r.matchId, r.seatId, r.buyerId, Confirmed, None, Some(l.ts), r.cancelledAt, r.createdAt)
  }

  /** The buyer released the hold, or took another seat of the match instead. */
  predicate ByRelease(l: Label, i: Id, r: Booking, r': Booking) {
    && r.status == Held
    && ((l.ReleaseCommitted? && l.id == i && l.b == r.buyerId
         && r' == Booking(r.matchId, r.seatId, r.buyerId, Cancelled, r.holdExpiresAt, r.confirmedAt, Some(l.ts), r.createdAt))
        || (l.HoldCommitted? && l.m == r.matchId && l.b == r.buyerId && l.s != r.seatId
            && r' == Booking(r.matchId, r.seatId, r.buyerId, Cancelled, r.holdExpiresAt, r.confirmedAt, Some(l.ts), r.createdAt)))
  }

  /** The buyer cancelled the sale before the match began. */
  predicate ByCancel(l: Label, starts: map<string, Time>, i: Id, r: Booking, r': Booking) {
    && l.CancelCommitted? && l.id == i && l.b == r.buyerId && r.status == Confirmed
    && r.matchId in starts && l.ts < starts[r.matchId]
    && r' == Booking(r.matchId, r.seatId, r.buyerId, Cancelled, r.holdExpiresAt, r.confirmedAt, Some(l.ts), r.createdAt)
  }

  /** The hold was over, and the sweeper or someone who wants the seat expired it. */
  predicate ByExpiry(l: Label, i: Id, r: Booking, r': Booking) {
    && r.status == Held
    && ((l.SweepCommitted? && i in l.ids && Outlived(r, l.ts))
        || (l.HoldCommitted? && l.m == r.matchId && l.s == r.seatId && Outlived(r, l.ts)))
    && r' == Booking(r.matchId, r.seatId, r.buyerId, Expired, r.holdExpiresAt, r.confirmedAt, r.cancelledAt, r.createdAt)
  }

  predicate Caused(l: Label, starts: map<string, Time>, i: Id, r: Booking, r': Booking) {
    ByConfirm(l, i, r, r') || ByRelease(l, i, r, r') || ByCancel(l, starts, i, r, r') || ByExpiry(l, i, r, r')
  }

  lemma HoldCauses(w: World, l: Label, w': World, i: Id)
    requires l.HoldCommitted? && HoldStep(w, l, w') && i in w.db.bookings
    ensures i in w'.db.bookings
    ensures w'.db.bookings[i] != w.db.bookings[i] ==> Caused(l, w.db.matches, i, w.db.bookings[i], w'.db.bookings[i])
  {
  }

  lemma StepCauses(w: World, l: Label, w': World, i: Id)
    requires Step(w, l, w') && i in w.db.bookings
    ensures i in w'.db.bookings
    ensures w'.db.bookings[i] != w.db.bookings[i] ==> Caused(l, w.db.matches, i, w.db.bookings[i], w'.db.bookings[i])
  {
    if l.HoldCommitted? {
      HoldCauses(w, l, w', i);
    }
  }

  /** A booking's row changes only by its own buyer's confirm in time, release, cancel in time or hold of
      another seat, or because it was a hold past its expiry; and then just as that act says. */
  lemma ChangesHaveACause(ws: seq<World>, ls: seq<Label>, k: nat, i: Id)
    requires IsRun(ws, ls) && k < |ls| && i in ws[k].db.bookings
    ensures i in ws[k + 1].db.bookings
    ensures ws[k + 1].db.bookings[i] != ws[k].db.bookings[i] ==>
              Caused(ls[k], ws[k].db.matches, i, ws[k].db.bookings[i], ws[k + 1].db.bookings[i])
  {
    StepCauses(ws[k], ls[k], ws[k + 1], i);
  }

  // ---------------------------------------------------------------- new bookings

  /** The new row is the one that hold `l` asked for. */
  predicate BornOf(l: Label, db: Db, i: Id, r: Booking) {
    && l.HoldCommitted? && l.id == i && (l.m, l.s) in db.seats && l.m in db.matches
    && r == Booking(l.m, l.s, l.b, Held, Some(l.ts + l.ttl), None, None, l.ts)
  }

  lemma StepBears(w: World, l: Label, w': World, i: Id)
    requires Step(w, l, w') && i in w'.db.bookings && i !in w.db.bookings
    ensures BornOf(l, w.db, i, w'.db.bookings[i])
  {
  }

  /** Every new booking is the row that a hold asked for, on a seat that exists and that nobody has: each
      row on the seat is neither held nor confirmed, or is a hold that was over. */
  lemma BookingsAreBornOfHolds(ws: seq<World>, ls: seq<Label>, k: nat, i: Id, j: Id)
    requires IsRun(ws, ls) && k < |ls| && i in ws[k + 1].db.bookings && i !in ws[k].db.bookings
    ensures BornOf(ls[k], ws[k].db, i, ws[k + 1].db.bookings[i])
    ensures j in ws[k].db.bookings && ws[k].db.bookings[j].matchId == ls[k].m && ws[k].db.bookings[j].seatId == ls[k].s ==>
              ws[k].db.bookings[j].status !in {Held, Confirmed} || (ws[k].db.bookings[j].status == Held && Outlived(ws[k].db.bookings[j], ls[k].ts))
  {
    assert Step(ws[k], ls[k], ws[k + 1]);
    StepBears(ws[k], ls[k], ws[k + 1], i);
    if j in ws[k].db.bookings && ws[k].db.bookings[j].matchId == ls[k].m && ws[k].db.bookings[j].seatId == ls[k].s {
      SeatIsFree(ws[k], ls[k], ws[k + 1], j);
    }
  }

  lemma SeatIsFree(w: World, l: Label, w': World, j: Id)
    requires l.HoldCommitted? && Step(w, l, w') && j in w.db.bookings
    requires w.db.bookings[j].matchId == l.m && w.db.bookings[j].seatId == l.s
    ensures w.db.bookings[j].status !in {Held, Confirmed} || (w.db.bookings[j].status == Held && Outlived(w.db.bookings[j], l.ts))
  {
    var cleared := Cleared(w.db.bookings, l.m, l.s, l.b, l.ts);
    assert !ActiveAt(cleared[j], l.m, l.s);
  }

  // ---------------------------------------------------------------- keys

  /** The key came to name the booking that hold `l` inserted under it. */
  predicate KeyedBy(l: Label, k: string, key: Key) {
    l.HoldCommitted? && l.key == k && key == Key(l.id, l.ts)
  }

  /** The key was older than the retention when it was pruned. */
  predicate PrunedBy(l: Label, k: string, key: Key) {
    l.PruneCommitted? && k in l.pruned && key.createdAt < l.ts - l.retention
  }

  lemma StepKeys(w: World, l: Label, w': World, k: string)
    requires Keyed(w) && Step(w, l, w')
    ensures k in w'.db.keys && (k !in w.db.keys || w'.db.keys[k] != w.db.keys[k]) ==> KeyedBy(l, k, w'.db.keys[k])
    ensures k in w.db.keys && k !in w'.db.keys ==> PrunedBy(l, k, w.db.keys[k])
    ensures k in w.db.keys && k in w'.db.keys && w'.db.keys[k] != w.db.keys[k] ==> l.HoldCommitted? && l.stale == Some(w.db.keys[k].bookingId)
  {
  }

  /** A key comes to name a booking only by the hold that inserted it, moves only from the booking which
      that hold's lookup had found under it, and goes only by pruning once it is past the retention. */
  lemma KeysHaveACause(ws: seq<World>, ls: seq<Label>, n: nat, k: string)
    requires IsRun(ws, ls) && n < |ls|
    ensures k in ws[n + 1].db.keys && (k !in ws[n].db.keys || ws[n + 1].db.keys[k] != ws[n].db.keys[k]) ==>
              KeyedBy(ls[n], k, ws[n + 1].db.keys[k])
    ensures k in ws[n].db.keys && k !in ws[n + 1].db.keys ==> PrunedBy(ls[n], k, ws[n].db.keys[k])
    ensures k in ws[n].db.keys && k in ws[n + 1].db.keys && ws[n + 1].db.keys[k] != ws[n].db.keys[k] ==>
              ls[n].HoldCommitted? && ls[n].stale == Some(ws[n].db.keys[k].bookingId)
  {
    RunKeepsInv(ws, ls, n);
    StepKeys(ws[n], ls[n], ws[n + 1], k);
  }

  // ---------------------------------------------------------------- refused statements

  /** A row that is the buyer's own, in the status the statement wants. */
  predicate Own(bs: map<Id, Booking>, id: Id, b: string, status: Status) {
    id in bs && bs[id].buyerId == b && bs[id].status == status
  }

  /** A confirm, release or cancel is refused only if there is no such row of the buyer's, or the time for
      it was over, or the row appeared after the statement had started. */
  lemma StatementRefusalsHaveACause(ws: seq<World>, ls: seq<Label>, k: nat)
    requires IsRun(ws, ls) && k < |ls|
    ensures var bs, l := ws[k].db.bookings, ls[k];
            && (l.ConfirmRefused? ==> BornSince(ws[k], l.id, l.ts) || !Own(bs, l.id, l.b, Held) || !Outlives(bs[l.id], l.ts))
            && (l.ReleaseRefused? ==> BornSince(ws[k], l.id, l.ts) || !Own(bs, l.id, l.b, Held))
            && (l.CancelRefused? ==>
                  || BornSince(ws[k], l.id, l.ts) || !Own(bs, l.id, l.b, Confirmed)
                  || bs[l.id].matchId !in ws[k].db.matches || ws[k].db.matches[bs[l.id].matchId] <= l.ts)
  {
    assert Step(ws[k], ls[k], ws[k + 1]);
  }

  /** The key names a booking that asks for the same, `same`, or for something else. */
  predicate KeyAsks(w: World, key: string, m: string, s: string, b: string, same: bool) {
    key in w.db.keys && w.db.keys[key].bookingId in w.db.bookings &&
    var r := w.db.bookings[w.db.keys[key].bookingId];
    same <==> r.matchId == m && r.seatId == s && r.buyerId == b
  }

  /** The booking that the key names is sold, or a hold that is not over at `at`. */
  predicate KeyInForce(w: World, key: string, at: Time) {
    key in w.db.keys && w.db.keys[key].bookingId in w.db.bookings &&
    var r := w.db.bookings[w.db.keys[key].bookingId];
    r.status == Confirmed || (r.status == Held && Outlives(r, at))
  }

  /** A keyed request is answered with a booking only by the key's own, which asks for the same and is in
      force; a reuse of the key is reported only if the key's booking asks for something else; and the seat
      is refused to a keyed request only if the key names nothing, or asks for the same and is not in force. */
  lemma KeyedAnswersHaveACause(ws: seq<World>, ls: seq<Label>, k: nat)
    requires IsRun(ws, ls) && k < |ls|
    ensures var w, l := ws[k], ls[k];
            && (l.Replayed? ==> KeyAsks(w, l.key, l.m, l.s, l.b, true) && KeyInForce(w, l.key, l.at) && l.id == w.db.keys[l.key].bookingId)
            && (l.KeyReused? ==> KeyAsks(w, l.key, l.m, l.s, l.b, false))
            && (l.SeatRefused? && l.key != "" && l.key in w.db.keys ==>
                  KeyAsks(w, l.key, l.m, l.s, l.b, true) && !KeyInForce(w, l.key, l.at))
  {
    RunKeepsInv(ws, ls, k);
    assert Step(ws[k], ls[k], ws[k + 1]);
    if ls[k].SeatRefused? && ls[k].key in ws[k].db.keys {
      assert !ReplayOk(ws[k], ls[k].m, ls[k].s, ls[k].b, ls[k].key, ws[k].db.keys[ls[k].key].bookingId, ls[k].at);
    }
  }

  // ---------------------------------------------------------------- no cancellation after the start

  ghost predicate InTime(db: Db) {
    forall i :: i in db.bookings && C.SoldAndCancelled(db.bookings[i]) ==>
      && db.bookings[i].cancelledAt.Some? && db.bookings[i].matchId in db.matches
      && db.bookings[i].cancelledAt.value < db.matches[db.bookings[i].matchId]
  }

  lemma StepKeepsInTime(w: World, l: Label, w': World)
    requires Inv(w) && InTime(w.db) && Step(w, l, w')
    ensures InTime(w'.db) && w'.db.matches == w.db.matches
  {
    forall i | i in w'.db.bookings && C.SoldAndCancelled(w'.db.bookings[i])
      ensures w'.db.bookings[i].cancelledAt.Some? && w'.db.bookings[i].matchId in w.db.matches
      ensures w'.db.bookings[i].cancelledAt.value < w.db.matches[w'.db.bookings[i].matchId]
    {
      if i in w.db.bookings {
        StepCauses(w, l, w', i);
        assert WellShaped(w.db.bookings[i]);
      } else {
        StepBears(w, l, w', i);
      }
    }
  }

  /** No sale is cancelled, and so none refunded, once its match has begun. */
  lemma {:induction false} SalesAreCancelledInTime(ws: seq<World>, ls: seq<Label>, k: nat)
    requires IsRun(ws, ls) && k < |ws|
    ensures InTime(ws[k].db)
  {
    if k > 0 {
      SalesAreCancelledInTime(ws, ls, k - 1);
      RunKeepsInv(ws, ls, k - 1);
      StepKeepsInTime(ws[k - 1], ls[k - 1], ws[k]);
    }
  }

  // ---------------------------------------------------------------- every interleaving

  /** The same of every interleaving: what its moves change in the committed tables has these causes. */
  lemma InterleavedChangesHaveACause(ss: seq<I.State>, mvs: seq<I.Move>, k: nat, i: Id)
    requires Runs.IsRun(ss, mvs) && k < |mvs|
    ensures var l, db, db' := Runs.Labels(ss, mvs)[k], ss[k].w.db, ss[k + 1].w.db;
            && (i in db.bookings ==> i in db'.bookings)
            && (i in db.bookings && db'.bookings[i] != db.bookings[i] ==>
                  Caused(l, db.matches, i, db.bookings[i], db'.bookings[i]))
            && (i in db'.bookings && i !in db.bookings ==> BornOf(l, db, i, db'.bookings[i]))
    ensures InTime(ss[k].w.db)
  {
    Runs.InterleavingsRefine(ss, mvs);
    var ws, ls := Runs.Worlds(ss), Runs.Labels(ss, mvs);
    if i in ws[k].db.bookings {
      ChangesHaveACause(ws, ls, k, i);
    } else if i in ws[k + 1].db.bookings {
      BookingsAreBornOfHolds(ws, ls, k, i, i);
    }
    SalesAreCancelledInTime(ws, ls, k);
  }
}
