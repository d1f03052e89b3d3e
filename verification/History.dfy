/**
 What holds of whole runs of the atomic machine, and hence, by refinement, of every
 interleaving of statements.
 */
module History {
  import opened Options
  import opened Tables
  import opened Atomic

  /** A run: worlds `ws` and the labels of the steps between them. */
  ghost predicate IsRun(ws: seq<World>, ls: seq<Label>) {
    && |ws| == |ls| + 1
    && Init(ws[0])
    && (forall k :: 0 <= k < |ls| ==> Step(ws[k], ls[k], ws[k + 1]))
    && Justified(ls)
  }

  /** Label `l` is the unique violation that refusal `r` answers. */
  predicate Rejects(l: Label, r: Label)
    requires r.SeatRefused?
  {
    || l == InsertRejected(r.t, r.ts, r.m, r.s, r.b, r.key)
    || (l.KeyRejected? && l == KeyRejected(r.t, r.ts, r.m, r.s, r.b, r.key, l.stale))
  }

  /** A request is refused only for a unique violation of its own, and once for each. */
  ghost predicate Justified(ls: seq<Label>) {
    forall n :: 0 <= n < |ls| && ls[n].SeatRefused? ==> exists p :: RefusedFor(ls, p, n)
  }

  ghost predicate RefusedFor(ls: seq<Label>, p: int, n: int)
    requires 0 <= n < |ls| && ls[n].SeatRefused?
  {
    && 0 <= p < n && Rejects(ls[p], ls[n])
    && forall q :: p < q < n ==> !(ls[q].SeatRefused? && ls[q].t == ls[n].t)
  }

  /** Behind every refused hold stands a moment at which the seat was someone else's, or at which the
      seat was free and the request's key had been moved to another booking. */
  lemma RefusalsHaveACause(ws: seq<World>, ls: seq<Label>, n: nat) returns (p: nat)
    requires IsRun(ws, ls) && n < |ls| && ls[n].SeatRefused?
    ensures p < n && Rejects(ls[p], ls[n])
    ensures || (ls[p].InsertRejected? && SeatOccupied(ws[p], ls[n].m, ls[n].s, ls[n].ts))
            || (ls[p].KeyRejected? && SeatFree(ws[p], ls[n].m, ls[n].s, ls[n].ts) && KeyMoved(ws[p], ls[n].key, ls[p].stale))
    ensures ls[n].key == "" ==> ls[p].InsertRejected?
  {
    p :| RefusedFor(ls, p, n);
    assert Step(ws[p], ls[p], ws[p + 1]);
  }

  lemma {:induction false} RunKeepsInv(ws: seq<World>, ls: seq<Label>, k: nat)
    requires IsRun(ws, ls) && k < |ws|
    ensures Inv(ws[k])
  {
    if k > 0 {
      RunKeepsInv(ws, ls, k - 1);
      StepKeepsInv(ws[k - 1], ls[k - 1], ws[k]);
    }
  }

  // ---------------------------------------------------------------- life of a booking

  /** held -> confirmed, expired or cancelled; confirmed -> cancelled; nothing else, and nothing else changes. */
  predicate Progress(r: Booking, r': Booking) {
    && SameParams(r', r.matchId, r.seatId, r.buyerId) && r'.createdAt == r.createdAt
    && (|| r' == r
        || (r.status == Held && r'.status != Held)
        || (r.status == Confirmed && r'.status == Cancelled && r'.cancelledAt.Some?))
    && (r.confirmedAt.Some? ==> r'.confirmedAt == r.confirmedAt)
  }

  lemma RewriteIsProgress(r: Booking, r': Booking, ts: Time)
    requires WellShaped(r) && Rewritten(r, r', ts)
    ensures Progress(r, r')
  {
  }

  ghost predicate AllProgress(bs: map<Id, Booking>, bs': map<Id, Booking>) {
    forall i :: i in bs ==> i in bs' && Progress(bs[i], bs'[i])
  }

  function Timestamp(l: Label): Time {
    match l
    case HoldCommitted(ts, _, _, _, _, _, _, _) => ts
    case ConfirmCommitted(ts, _, _) => ts
    case ReleaseCommitted(ts, _, _) => ts
    case CancelCommitted(ts, _, _, _, _) => ts
    case SweepCommitted(ts, _) => ts
    case _ => 0
  }

  /** What a step does to one row that was already there. */
  lemma StepRewrites(w: World, l: Label, w': World, i: Id)
    requires Step(w, l, w') && i in w.db.bookings
    ensures i in w'.db.bookings && Rewritten(w.db.bookings[i], w'.db.bookings[i], Timestamp(l))
  {
  }

  lemma StepIsProgress(w: World, l: Label, w': World)
    requires Shaped(w.db.bookings) && Step(w, l, w')
    ensures AllProgress(w.db.bookings, w'.db.bookings)
  {
    forall i | i in w.db.bookings
      ensures i in w'.db.bookings && Progress(w.db.bookings[i], w'.db.bookings[i])
    {
      StepRewrites(w, l, w', i);
      RewriteIsProgress(w.db.bookings[i], w'.db.bookings[i], Timestamp(l));
    }
  }

  lemma ProgressComposes(r: Booking, q: Booking, p: Booking)
    requires Progress(r, q) && Progress(q, p)
    ensures Progress(r, p)
  {
  }

  /** Over any stretch of any run, bookings stay, keep their parameters and only move forward. */
  lemma {:induction false} LifecycleIsMonotone(ws: seq<World>, ls: seq<Label>, j: nat, k: nat)
    requires IsRun(ws, ls) && j <= k < |ws|
    ensures AllProgress(ws[j].db.bookings, ws[k].db.bookings)
    decreases k
  {
    if j < k {
      LifecycleIsMonotone(ws, ls, j, k - 1);
      RunKeepsInv(ws, ls, k - 1);
      StepIsProgress(ws[k - 1], ls[k - 1], ws[k]);
      forall i | i in ws[j].db.bookings
        ensures i in ws[k].db.bookings && Progress(ws[j].db.bookings[i], ws[k].db.bookings[i])
      {
        ProgressComposes(ws[j].db.bookings[i], ws[k - 1].db.bookings[i], ws[k].db.bookings[i]);
      }
    }
  }

  // ---------------------------------------------------------------- a seat is never sold twice

  /** The stored sale interval of `r` ends before that of `q` begins. */
  predicate SoldBefore(r: Booking, q: Booking) {
    && r.cancelledAt.Some? && q.confirmedAt.Some?
    && r.status == Cancelled && r.cancelledAt.value <= q.confirmedAt.value
  }

  predicate IsConfirmed(w: World, i: Id) {
    i in w.db.bookings && w.db.bookings[i].status == Confirmed
  }

  lemma OneActivePerSeat(bs: map<Id, Booking>, i: Id, j: Id)
    requires SeatUnique(bs) && i in bs && j in bs && i != j && SameSeat(bs[i], bs[j]) && Active(bs[i])
    ensures !Active(bs[j])
  {
    assert !ActiveAt(bs[j], bs[i].matchId, bs[i].seatId);
  }

  /** Where one of two bookings of a seat is confirmed beside the other, the other never is later on. */
  lemma OneSaleThenNone(ws: seq<World>, ls: seq<Label>, n: nat, p: nat, i: Id, j: Id)
    requires IsRun(ws, ls) && n <= p < |ws| && i != j && IsConfirmed(ws[n], i) && j in ws[n].db.bookings
    requires SameSeat(ws[n].db.bookings[i], ws[n].db.bookings[j])
    ensures !IsConfirmed(ws[p], j)
  {
    RunKeepsInv(ws, ls, n);
    OneActivePerSeat(ws[n].db.bookings, i, j);
    LifecycleIsMonotone(ws, ls, n, p);
    assert Progress(ws[n].db.bookings[j], ws[p].db.bookings[j]);
  }

  lemma SameSeatAlways(ws: seq<World>, ls: seq<Label>, n: nat, k: nat, i: Id, j: Id)
    requires IsRun(ws, ls) && n < |ws| && k < |ws| && i in ws[n].db.bookings && j in ws[n].db.bookings
    requires i in ws[k].db.bookings && j in ws[k].db.bookings && SameSeat(ws[k].db.bookings[i], ws[k].db.bookings[j])
    ensures SameSeat(ws[n].db.bookings[i], ws[n].db.bookings[j])
  {
    var a, b := if n <= k then n else k, if n <= k then k else n;
    LifecycleIsMonotone(ws, ls, a, b);
    assert Progress(ws[a].db.bookings[i], ws[b].db.bookings[i]) && Progress(ws[a].db.bookings[j], ws[b].db.bookings[j]);
  }

  /** Every state in which booking `i` is confirmed comes before booking `j` exists. */
  ghost predicate SoldOutBefore(ws: seq<World>, i: Id, j: Id) {
    forall n :: 0 <= n < |ws| && IsConfirmed(ws[n], i) ==> j !in ws[n].db.bookings
  }

  /** A seat is sold to one booking at a time, whatever the stored stamps say: of two bookings of it, one
      is done being confirmed before the other comes to be. */
  lemma SalesAlternate(ws: seq<World>, ls: seq<Label>, k: nat, i: Id, j: Id)
    requires IsRun(ws, ls) && k < |ws| && i != j && i in ws[k].db.bookings && j in ws[k].db.bookings
    requires SameSeat(ws[k].db.bookings[i], ws[k].db.bookings[j])
    ensures SoldOutBefore(ws, i, j) || SoldOutBefore(ws, j, i)
  {
    if !SoldOutBefore(ws, i, j) && !SoldOutBefore(ws, j, i) {
      var n :| 0 <= n < |ws| && IsConfirmed(ws[n], i) && j in ws[n].db.bookings;
      var p :| 0 <= p < |ws| && IsConfirmed(ws[p], j) && i in ws[p].db.bookings;
      SameSeatAlways(ws, ls, n, k, i, j);
      SameSeatAlways(ws, ls, p, k, i, j);
      if n <= p {
        OneSaleThenNone(ws, ls, n, p, i, j);
      } else {
        OneSaleThenNone(ws, ls, p, n, j, i);
      }
    }
  }

  // ---------------------------------------------------------------- the stored sale intervals

  /** Every confirm drew its timestamp no earlier than the hold it confirms was committed. */
  ghost predicate ConfirmsFollowHolds(ws: seq<World>, ls: seq<Label>)
    requires |ws| == |ls| + 1
  {
    forall k :: 0 <= k < |ls| && ls[k].ConfirmCommitted? && ls[k].id in ws[k].births ==> ws[k].births[ls[k].id].at <= ls[k].ts
  }

  ghost predicate SalesFollowBirths(w: World) {
    forall i :: i in w.db.bookings && i in w.births && w.db.bookings[i].confirmedAt.Some? ==>
      w.births[i].at <= w.db.bookings[i].confirmedAt.value
  }

  lemma StepKeepsSalesFollowBirths(w: World, l: Label, w': World)
    requires Inv(w) && SalesFollowBirths(w) && Step(w, l, w')
    requires l.ConfirmCommitted? && l.id in w.births ==> w.births[l.id].at <= l.ts
    ensures SalesFollowBirths(w')
  {
    forall i | i in w'.db.bookings && i in w'.births && w'.db.bookings[i].confirmedAt.Some?
      ensures w'.births[i].at <= w'.db.bookings[i].confirmedAt.value
    {
      if i in w.db.bookings {
        StepRewrites(w, l, w', i);
      }
    }
  }

  lemma {:induction false} RunKeepsSalesFollowBirths(ws: seq<World>, ls: seq<Label>, k: nat)
    requires IsRun(ws, ls) && ConfirmsFollowHolds(ws, ls) && k < |ws|
    ensures SalesFollowBirths(ws[k])
  {
    if k > 0 {
      RunKeepsSalesFollowBirths(ws, ls, k - 1);
      RunKeepsInv(ws, ls, k - 1);
      StepKeepsSalesFollowBirths(ws[k - 1], ls[k - 1], ws[k]);
    }
  }

  lemma SaleOrder(w: World, i: Id, j: Id)
    requires Inv(w) && SalesFollowBirths(w) && i in w.db.bookings && j in w.db.bookings && i != j
    requires SameSeat(w.db.bookings[i], w.db.bookings[j])
    requires w.db.bookings[i].confirmedAt.Some? && w.db.bookings[j].confirmedAt.Some?
    ensures SoldBefore(w.db.bookings[i], w.db.bookings[j]) || SoldBefore(w.db.bookings[j], w.db.bookings[i])
  {
    assert StampsOk(w.db.bookings[i], w.births[i].at, w.clock);
    assert StampsOk(w.db.bookings[j], w.births[j].at, w.clock);
    assert WellShaped(w.db.bookings[i]) && WellShaped(w.db.bookings[j]);
  }

  /** When confirms are sent after their holds were committed, the stored [confirmed_at, cancelled_at)
      intervals of one seat's bookings are disjoint in every reachable state. */
  lemma SalesAreDisjoint(ws: seq<World>, ls: seq<Label>, k: nat, i: Id, j: Id)
    requires IsRun(ws, ls) && ConfirmsFollowHolds(ws, ls) && k < |ws|
    requires i in ws[k].db.bookings && j in ws[k].db.bookings && i != j
    requires SameSeat(ws[k].db.bookings[i], ws[k].db.bookings[j])
    requires ws[k].db.bookings[i].confirmedAt.Some? && ws[k].db.bookings[j].confirmedAt.Some?
    ensures var r, q := ws[k].db.bookings[i], ws[k].db.bookings[j]; SoldBefore(r, q) || SoldBefore(q, r)
  {
    RunKeepsInv(ws, ls, k);
    RunKeepsSalesFollowBirths(ws, ls, k);
    SaleOrder(ws[k], i, j);
  }

  // ---------------------------------------------------------------- confirmed_at remembers the sale

  lemma SaleIsRecorded(w: World, l: Label, w': World, i: Id)
    requires Inv(w) && Step(w, l, w') && i in w'.db.bookings && w'.db.bookings[i].confirmedAt.Some?
    ensures w'.db.bookings[i].status == Confirmed
            || (i in w.db.bookings && w.db.bookings[i].confirmedAt.Some?)
  {
    if i in w.db.bookings {
      StepRewrites(w, l, w', i);
    }
  }

  /** confirmed_at is set exactly on the bookings that were confirmed at some point of the run. */
  lemma {:induction false} ConfirmedAtMeansSold(ws: seq<World>, ls: seq<Label>, k: nat, i: Id)
    requires IsRun(ws, ls) && k < |ws| && i in ws[k].db.bookings
    ensures ws[k].db.bookings[i].confirmedAt.Some?
            <==> exists j :: 0 <= j <= k && i in ws[j].db.bookings && ws[j].db.bookings[i].status == Confirmed
  {
    forall j | 0 <= j <= k && i in ws[j].db.bookings && ws[j].db.bookings[i].status == Confirmed
      ensures ws[k].db.bookings[i].confirmedAt.Some?
    {
      RunKeepsInv(ws, ls, j);
      assert WellShaped(ws[j].db.bookings[i]);
      LifecycleIsMonotone(ws, ls, j, k);
    }
    if ws[k].db.bookings[i].confirmedAt.Some? && ws[k].db.bookings[i].status != Confirmed {
      assert k > 0;
      RunKeepsInv(ws, ls, k - 1);
      SaleIsRecorded(ws[k - 1], ls[k - 1], ws[k], i);
      ConfirmedAtMeansSold(ws, ls, k - 1, i);
    }
  }

  // ---------------------------------------------------------------- idempotency keys

  predicate NoPrune(ls: seq<Label>) {
    forall k :: 0 <= k < |ls| ==> !ls[k].PruneCommitted?
  }

  predicate SameRequest(r: Booking, q: Booking) {
    SameParams(q, r.matchId, r.seatId, r.buyerId)
  }

  /** The booking `i`, inserted under key `k`, asked for what the key's current booking asked for. */
  ghost predicate KeyedLike(w: World, i: Id, k: string) {
    && k in w.db.keys && w.db.keys[k].bookingId in w.db.bookings && i in w.db.bookings
    && SameRequest(w.db.bookings[w.db.keys[k].bookingId], w.db.bookings[i])
  }

  ghost predicate KeyHistory(w: World) {
    forall i :: i in w.births && w.births[i].key != "" ==> KeyedLike(w, i, w.births[i].key)
  }

  /** A key moves only from a dead booking to one that asks for the same. */
  lemma HoldKeepsKeyedLike(w: World, l: Label, w': World, i: Id, k: string)
    requires l.HoldCommitted? && HoldStep(w, l, w') && KeyedLike(w, i, k) && k != ""
    ensures KeyedLike(w', i, k)
  {
    StepRewrites(w, l, w', i);
    StepRewrites(w, l, w', w.db.keys[k].bookingId);
    if k == l.key {
      assert l.stale == Some(w.db.keys[k].bookingId);
    }
  }

  lemma HoldKeepsKeyHistory(w: World, l: Label, w': World)
    requires l.HoldCommitted? && KeyHistory(w) && HoldStep(w, l, w')
    ensures KeyHistory(w')
  {
    forall i | i in w'.births && w'.births[i].key != "" ensures KeyedLike(w', i, w'.births[i].key) {
      if i != l.id {
        HoldKeepsKeyedLike(w, l, w', i, w'.births[i].key);
      }
    }
  }

  lemma StepKeepsKeyHistory(w: World, l: Label, w': World)
    requires Inv(w) && KeyHistory(w) && Step(w, l, w') && !l.PruneCommitted?
    ensures KeyHistory(w')
  {
    if l.HoldCommitted? {
      HoldKeepsKeyHistory(w, l, w');
    } else {
      forall i | i in w'.births && w'.births[i].key != "" ensures KeyedLike(w', i, w'.births[i].key) {
        var k := w'.births[i].key;
        assert KeyedLike(w, i, k);
        StepRewrites(w, l, w', i);
        StepRewrites(w, l, w', w.db.keys[k].bookingId);
      }
    }
  }

  lemma {:induction false} RunKeepsKeyHistory(ws: seq<World>, ls: seq<Label>, k: nat)
    requires IsRun(ws, ls) && NoPrune(ls) && k < |ws|
    ensures KeyHistory(ws[k])
  {
    if k > 0 {
      RunKeepsKeyHistory(ws, ls, k - 1);
      RunKeepsInv(ws, ls, k - 1);
      StepKeepsKeyHistory(ws[k - 1], ls[k - 1], ws[k]);
    }
  }

  lemma {:induction false} BirthsStay(ws: seq<World>, ls: seq<Label>, j: nat, k: nat, i: Id)
    requires IsRun(ws, ls) && j <= k < |ws| && i in ws[j].births
    ensures i in ws[k].births && ws[k].births[i] == ws[j].births[i]
    decreases k
  {
    if j < k {
      BirthsStay(ws, ls, j, k - 1, i);
      RunKeepsInv(ws, ls, k - 1);
      BirthStays(ws[k - 1], ls[k - 1], ws[k], i);
    }
  }

  lemma BirthStays(w: World, l: Label, w': World, i: Id)
    requires Step(w, l, w') && i in w.births && w.births.Keys == w.db.bookings.Keys
    ensures i in w'.births && w'.births[i] == w.births[i]
  {
  }

  /** Without pruning, a key once used is used forever, and always for the same (match, seat, buyer). */
  lemma KeyParametersAreFixed(ws: seq<World>, ls: seq<Label>, j: nat, k: nat, key: string)
    requires IsRun(ws, ls) && NoPrune(ls) && j <= k < |ws| && key in ws[j].db.keys
    ensures key in ws[k].db.keys
    ensures ws[j].db.keys[key].bookingId in ws[j].db.bookings && ws[k].db.keys[key].bookingId in ws[k].db.bookings
    ensures SameRequest(ws[j].db.bookings[ws[j].db.keys[key].bookingId], ws[k].db.bookings[ws[k].db.keys[key].bookingId])
  {
    RunKeepsInv(ws, ls, j);
    var i := ws[j].db.keys[key].bookingId;
    BirthsStay(ws, ls, j, k, i);
    RunKeepsKeyHistory(ws, ls, k);
    assert KeyedLike(ws[k], i, key);
    LifecycleIsMonotone(ws, ls, j, k);
  }

  lemma OneActivePerKey(w: World, i: Id, j: Id)
    requires Inv(w) && KeyHistory(w) && i in w.births && j in w.births
    requires w.births[i].key == w.births[j].key != ""
    requires i in w.db.bookings && j in w.db.bookings && Active(w.db.bookings[i]) && Active(w.db.bookings[j])
    ensures i == j
  {
    assert KeyedLike(w, i, w.births[i].key) && KeyedLike(w, j, w.births[j].key);
    assert ActiveAt(w.db.bookings[j], w.db.bookings[i].matchId, w.db.bookings[i].seatId);
  }

  /** At no time are two bookings inserted under one key live. */
  lemma OneLiveBookingPerKey(ws: seq<World>, ls: seq<Label>, k: nat, i: Id, j: Id)
    requires IsRun(ws, ls) && NoPrune(ls) && k < |ws|
    requires i in ws[k].births && j in ws[k].births && ws[k].births[i].key == ws[k].births[j].key != ""
    requires i in ws[k].db.bookings && Live(ws[k].db.bookings[i], ws[k].clock)
    requires j in ws[k].db.bookings && Live(ws[k].db.bookings[j], ws[k].clock)
    ensures i == j
  {
    RunKeepsInv(ws, ls, k);
    RunKeepsKeyHistory(ws, ls, k);
    OneActivePerKey(ws[k], i, j);
  }

  /** Step `l` answers a keyed hold request with booking `id`. */
  predicate KeyedSuccess(l: Label, m: string, s: string, b: string, key: string, id: Id) {
    && key != ""
    && ((l.HoldCommitted? && l.m == m && l.s == s && l.b == b && l.key == key && l.id == id)
        || (l.Replayed? && l.m == m && l.s == s && l.b == b && l.key == key && l.id == id))
  }

  /** The `now()` by which the answer was computed: the transaction's, or the lookup's own. */
  function AnsweredAt(l: Label): Time
    requires l.HoldCommitted? || l.Replayed?
  {
    if l.HoldCommitted? then l.ts else l.at
  }

  lemma KeyedAnswer(w: World, l: Label, w': World, m: string, s: string, b: string, key: string, id: Id)
    requires Inv(w) && Step(w, l, w') && KeyedSuccess(l, m, s, b, key, id)
    ensures id in w'.db.bookings && id in w'.births && w'.births[id].key == key
    ensures SameParams(w'.db.bookings[id], m, s, b) && Active(w'.db.bookings[id])
    ensures (l.HoldCommitted? ==> l.ttl > 0) ==> Live(w'.db.bookings[id], AnsweredAt(l))
    ensures l.HoldCommitted? ==> (Live(w'.db.bookings[id], w.clock) <==> w.clock < l.ts + l.ttl)
  {
  }

  /** Every keyed success, fresh or replayed, names a booking made under that key that matches the
      request and is live by the `now()` of the answer. By the clock at its commit a fresh hold is live
      iff the transaction took less than the TTL. */
  lemma KeyedSuccessIsLive(ws: seq<World>, ls: seq<Label>, n: nat, m: string, s: string, b: string, key: string, id: Id)
    requires IsRun(ws, ls) && n < |ls| && KeyedSuccess(ls[n], m, s, b, key, id)
    ensures id in ws[n + 1].db.bookings && id in ws[n + 1].births && ws[n + 1].births[id].key == key
    ensures SameParams(ws[n + 1].db.bookings[id], m, s, b)
    ensures (ls[n].HoldCommitted? ==> ls[n].ttl > 0) ==> Live(ws[n + 1].db.bookings[id], AnsweredAt(ls[n]))
    ensures ls[n].HoldCommitted? ==> (Live(ws[n + 1].db.bookings[id], ws[n].clock) <==> ws[n].clock < ls[n].ts + ls[n].ttl)
  {
    RunKeepsInv(ws, ls, n);
    KeyedAnswer(ws[n], ls[n], ws[n + 1], m, s, b, key, id);
  }

  lemma AnswerStays(ws: seq<World>, ls: seq<Label>, n: nat, k: nat, m: string, s: string, b: string, key: string, id: Id)
    requires IsRun(ws, ls) && n < k < |ws| && KeyedSuccess(ls[n], m, s, b, key, id)
    ensures id in ws[k].births && ws[k].births[id].key == key
    ensures id in ws[k].db.bookings && SameParams(ws[k].db.bookings[id], m, s, b)
  {
    KeyedSuccessIsLive(ws, ls, n, m, s, b, key, id);
    LifecycleIsMonotone(ws, ls, n + 1, k);
    BirthsStay(ws, ls, n + 1, k, id);
  }

  /** Two keyed successes under one key were for the same request, and while the booking the first
      returned is still held or confirmed, the second returns that same booking. */
  lemma RetriesAgree(ws: seq<World>, ls: seq<Label>, n: nat, p: nat, key: string,
                     m: string, s: string, b: string, id: Id, m': string, s': string, b': string, id': Id)
    requires IsRun(ws, ls) && NoPrune(ls) && n < p < |ls|
    requires KeyedSuccess(ls[n], m, s, b, key, id) && KeyedSuccess(ls[p], m', s', b', key, id')
    ensures m' == m && s' == s && b' == b
    ensures id in ws[p + 1].db.bookings && (Active(ws[p + 1].db.bookings[id]) ==> id' == id)
  {
    AnswerStays(ws, ls, n, p + 1, m, s, b, key, id);
    AnswerStays(ws, ls, p, p + 1, m', s', b', key, id');
    RunKeepsKeyHistory(ws, ls, p + 1);
    assert KeyedLike(ws[p + 1], id, key) && KeyedLike(ws[p + 1], id', key);
    if Active(ws[p + 1].db.bookings[id]) {
      RunKeepsInv(ws, ls, p);
      KeyedAnswer(ws[p], ls[p], ws[p + 1], m', s', b', key, id');
      RunKeepsInv(ws, ls, p + 1);
      OneActivePerKey(ws[p + 1], id, id');
    }
  }
}
