/**
 The store and the refund workers together: statement-level transactions and worker steps over one
 set of tables. Seen from the store, a combined run is a run of module Interleaving; seen from the
 workers, it is a run of module Outbox. So what either proves holds of the whole.
 */
module Pipeline {
  import opened Options
  import opened Tables
  import opened Reads
  import A = Atomic
  import C = Conservation
  import I = Interleaving
  import O = Outbox
  import R = Refinement
  import Runs

  datatype State = State(store: I.State, workers: map<nat, O.Worker>, calls: seq<O.Call>)

  datatype Move = Store(mv: I.Move) | Work(step: O.Move)

  /** What the workers see of the state. */
  function Desk(s: State): O.State {
    O.State(s.store.w.db.refunds, s.store.w.db.events, s.store.w.clock, s.workers, s.calls)
  }

  /** The state after a worker's step. */
  function Worked(s: State, o: O.State): State {
    State(s.store.(w := s.store.w.(db := s.store.w.db.(refunds := o.refunds, events := o.events))), o.workers, o.calls)
  }

  predicate IsWork(step: O.Move) {
    !step.Tick? && !step.Cancel? && !step.InsertOther?
  }

  ghost predicate Next(s: State, mv: Move, s': State) {
    match mv
    case Store(m) => !m.WorkerWrites? && I.Next(s.store, m, s'.store) && s'.workers == s.workers && s'.calls == s.calls
    case Work(step) => IsWork(step) && O.Next(Desk(s), step, Desk(s')) && s' == Worked(s, Desk(s'))
  }

  ghost predicate IsRun(ss: seq<State>, mvs: seq<Move>) {
    && |ss| == |mvs| + 1
    && I.Init(ss[0].store) && ss[0].workers == map[] && ss[0].calls == []
    && forall k :: 0 <= k < |mvs| ==> Next(ss[k], mvs[k], ss[k + 1])
  }

  // ---------------------------------------------------------------- seen from the store

  /** A worker's step touches only the mutable columns of refunds and events. */
  lemma WorkIsAWorkerStep(s: State, step: O.Move, s': State)
    requires Next(s, Work(step), s')
    ensures A.WorkerStep(s.store.w, s'.store.w)
  {
  }

  ghost function StoreMove(mv: Move, s': State): I.Move {
    match mv
    case Store(m) => m
    case Work(_) => I.WorkerWrites(s'.store.w.db.refunds, s'.store.w.db.events)
  }

  ghost function Stores(ss: seq<State>): (ts: seq<I.State>)
    ensures |ts| == |ss| && forall k :: 0 <= k < |ss| ==> ts[k] == ss[k].store
  {
    seq(|ss|, k requires 0 <= k < |ss| => ss[k].store)
  }

  ghost function StoreMoves(ss: seq<State>, mvs: seq<Move>): (ms: seq<I.Move>)
    requires |ss| == |mvs| + 1
    ensures |ms| == |mvs| && forall k :: 0 <= k < |mvs| ==> ms[k] == StoreMove(mvs[k], ss[k + 1])
  {
    seq(|mvs|, k requires 0 <= k < |mvs| => StoreMove(mvs[k], ss[k + 1]))
  }

  lemma StoreSteps(s: State, mv: Move, s': State)
    requires Next(s, mv, s')
    ensures I.Next(s.store, StoreMove(mv, s'), s'.store)
  {
    if mv.Work? {
      WorkIsAWorkerStep(s, mv.step, s');
      assert I.NextOther(s.store, StoreMove(mv, s'), s'.store);
    }
  }

  /** A combined run, seen from the store, is an interleaved run with the workers' writes in it. */
  lemma StoreRuns(ss: seq<State>, mvs: seq<Move>)
    requires IsRun(ss, mvs)
    ensures Runs.IsRun(Stores(ss), StoreMoves(ss, mvs))
  {
    var ts, ms := Stores(ss), StoreMoves(ss, mvs);
    forall k | 0 <= k < |ms| ensures I.Next(ts[k], ms[k], ts[k + 1]) {
      StoreSteps(ss[k], mvs[k], ss[k + 1]);
    }
  }

  // ---------------------------------------------------------------- seen from the workers

  /** The commit of a cancellation adds its refund and event; every other move of the store leaves both
      tables alone and at most moves the clock. */
  ghost function WorkerMove(s: State, mv: Move, s': State): O.Move {
    match mv
    case Work(step) => step
    case Store(m) =>
      if m.Commit? && m.t in s.store.txs && s.store.txs[m.t].op.Cancel? then
        var x := s.store.txs[m.t];
        O.Cancel(x.op.id, x.ts, x.refundId, x.eventId)
      else O.Tick(s'.store.w.clock)
  }

  lemma HoldMoveIsQuiet(s: I.State, m: I.Move, s': I.State)
    requires I.NextHold(s, m, s')
    ensures s'.w == s.w
  {
    R.HoldMovesArePrivate(s, m, s');
  }

  lemma OtherMoveIsQuiet(s: I.State, m: I.Move, s': I.State)
    requires I.NextOther(s, m, s') && !m.WorkerWrites? && !(m.Commit? && s.txs[m.t].op.Cancel?)
    ensures s'.w.db.refunds == s.w.db.refunds && s'.w.db.events == s.w.db.events && s.w.clock <= s'.w.clock
  {
  }

  lemma CancelIsAnnounced(s: I.State, t: nat, s': I.State)
    requires I.Inv(s) && I.NextOther(s, I.Commit(t), s') && s.txs[t].op.Cancel?
    ensures var x := s.txs[t];
            && x.ts <= s.w.clock && x.refundId !in s.w.db.refunds && x.eventId !in s.w.db.events && s'.w.clock == s.w.clock
            && s'.w.db.refunds == s.w.db.refunds[x.refundId := Refund(x.op.id, Pending, x.ts, None, None)]
            && s'.w.db.events == s.w.db.events[x.eventId := Event(REFUND_REQUESTED, x.op.id, RefundId(x.refundId), x.ts, None, None)]
  {
    assert I.TxOk(s, s.txs[t]);
  }

  lemma WorkersMove(s: State, mv: Move, s': State)
    requires I.Inv(s.store) && Next(s, mv, s')
    ensures O.Next(Desk(s), WorkerMove(s, mv, s'), Desk(s'))
  {
    if mv.Store? {
      if I.NextHold(s.store, mv.mv, s'.store) {
        HoldMoveIsQuiet(s.store, mv.mv, s'.store);
      } else if mv.mv.Commit? && s.store.txs[mv.mv.t].op.Cancel? {
        CancelIsAnnounced(s.store, mv.mv.t, s'.store);
      } else {
        OtherMoveIsQuiet(s.store, mv.mv, s'.store);
      }
    }
  }

  ghost function Desks(ss: seq<State>): (ds: seq<O.State>)
    ensures |ds| == |ss| && forall k :: 0 <= k < |ss| ==> ds[k] == Desk(ss[k])
  {
    seq(|ss|, k requires 0 <= k < |ss| => Desk(ss[k]))
  }

  ghost function WorkerMoves(ss: seq<State>, mvs: seq<Move>): (ms: seq<O.Move>)
    requires |ss| == |mvs| + 1
    ensures |ms| == |mvs| && forall k :: 0 <= k < |mvs| ==> ms[k] == WorkerMove(ss[k], mvs[k], ss[k + 1])
  {
    seq(|mvs|, k requires 0 <= k < |mvs| => WorkerMove(ss[k], mvs[k], ss[k + 1]))
  }

  /** A combined run, seen from the workers, is a run of the refund protocol. */
  lemma WorkersRun(ss: seq<State>, mvs: seq<Move>)
    requires IsRun(ss, mvs)
    ensures O.IsRun(Desks(ss), WorkerMoves(ss, mvs))
  {
    var ds, ms := Desks(ss), WorkerMoves(ss, mvs);
    StoreRuns(ss, mvs);
    forall k | 0 <= k < |ms| ensures O.Next(ds[k], ms[k], ds[k + 1]) {
      Runs.RunKeepsInv(Stores(ss), StoreMoves(ss, mvs), k);
      WorkersMove(ss[k], mvs[k], ss[k + 1]);
    }
  }

  // ---------------------------------------------------------------- from the cancelled sale to the gateway

  /** Refund `r` is pending, and announced by an event not processed yet, or refunded, with the reference of
      a call the gateway got for it. */
  ghost predicate Underway(s: State, r: Id) {
    r in s.store.w.db.refunds &&
    var refund := s.store.w.db.refunds[r];
    if refund.status == Pending then exists e :: O.Announces(Desk(s), e, r) && s.store.w.db.events[e].processedAt.None?
    else refund.status == Refunded && refund.completedAt.Some? && refund.externalRef.Some?
         && O.Call(r, refund.externalRef.value) in s.calls
  }

  /** In every state of every combined run: a booking that was sold and cancelled has one refund, and that
      refund is underway or refunded; no other booking has any. */
  lemma CancelledSalesAreRefunded(ss: seq<State>, mvs: seq<Move>, k: nat, i: Id)
    requires IsRun(ss, mvs) && k < |ss| && i in ss[k].store.w.db.bookings
    ensures var db := ss[k].store.w.db;
            C.SoldAndCancelled(db.bookings[i]) <==> exists r :: r in db.refunds && db.refunds[r].bookingId == i
    ensures var rs := ss[k].store.w.db.refunds;
            forall r, q :: r in rs && q in rs && rs[r].bookingId == rs[q].bookingId ==> r == q
    ensures forall r :: r in ss[k].store.w.db.refunds ==> Underway(ss[k], r)
  {
    StoreRuns(ss, mvs);
    Runs.CommittedStatesAreSound(Stores(ss), StoreMoves(ss, mvs), k);
    var db := ss[k].store.w.db;
    if C.SoldAndCancelled(db.bookings[i]) {
      var r, e :| C.Paired(db, i, r, e);
    }
    WorkersRun(ss, mvs);
    O.NoRefundIsLost(Desks(ss), WorkerMoves(ss, mvs), k);
    forall r | r in db.refunds ensures Underway(ss[k], r) {
      assert r in Desk(ss[k]).refunds;
    }
  }

  /** In every state of every combined run the buyer's history shows a refund for just the cancelled sales:
      each has one refund, which is shown as it is, pending and underway, or refunded by a gateway call. */
  lemma HistoryShowsRefunds(ss: seq<State>, mvs: seq<Move>, k: nat, m: string, b: string, x: HistoryLine)
    requires IsRun(ss, mvs) && k < |ss| && x in HistoryOf(ss[k].store.w.db, m, b)
    ensures x.refund.None? <==> x.status == Confirmed
    ensures x.refund.Some? ==> exists r ::
              && C.OnlyRefund(ss[k].store.w.db.refunds, x.id, r) && x.refund == Some(ss[k].store.w.db.refunds[r].status)
              && x.refund.value in {Pending, Refunded} && Underway(ss[k], r)
  {
    StoreRuns(ss, mvs);
    Runs.HistoriesAreAsPromised(Stores(ss), StoreMoves(ss, mvs), k, m, b);
    var db := ss[k].store.w.db;
    assert C.ShowsItsBooking(x, db);
    if x.refund.Some? {
      var r :| C.OnlyRefund(db.refunds, x.id, r) && x.refund.value == db.refunds[r].status;
      CancelledSalesAreRefunded(ss, mvs, k, x.id);
      assert Underway(ss[k], r);
    }
  }
}
