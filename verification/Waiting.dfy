/**
 Which statements wait, and for whom. PostgreSQL makes a statement wait only for a transaction that has
 written the row, or taken the key or the lock, that it needs; so every unfinished transaction either has
 a next move besides giving up or waits for another that can be named. The buyer's lock rules out a deadlock
 of one buyer's requests. Two buyers can deadlock, which is why a call retries on SQLSTATE 40P01.
 */
module Waiting {
  import opened Options
  import opened Tables
  import opened Interleaving
  import opened Paths
  import opened LoneCalls
  import A = Atomic
  import Erasure
  import Runs
  import Scenarios

  // ---------------------------------------------------------------- who keeps whom

  /** A row version that the new row of a hold would clash with in one of the two indexes. */
  predicate Clashes(r: Booking, op: Op)
    requires op.Hold?
  {
    ActiveAt(r, op.m, op.s) || HeldBy(r, op.m, op.b)
  }

  /** The row that a single statement would update, if its guard still holds. */
  ghost predicate WouldUpdate(db: Db, x: Tx, i: Id) {
    i in x.seen &&
    match x.op
    case Confirm(id, b) => i == id && A.Confirmable(db.bookings, id, b, x.ts)
    case Release(id, b) => i == id && A.Releasable(db.bookings, id, b)
    case Cancel(id, b) => i == id && A.Cancellable(db, id, b, x.ts)
    case _ => false
  }

  /** What the unfinished `y` has that the next statement of `x` needs. */
  ghost predicate Keeps(db: Db, y: Tx, x: Tx) {
    match x.pc
    case Begun => x.op.Hold? && HasLock(y) && y.op.m == x.op.m && y.op.b == x.op.b
    case Locked =>
      x.op.Hold? && x.op.key in y.dels && x.op.key in db.keys && x.stale == Some(db.keys[x.op.key].bookingId)
    case CancelStarted =>
      x.op.Hold? && exists i :: i in y.rows && i in db.bookings && i in x.seen && OtherHold(db.bookings[i], x.op.m, x.op.s, x.op.b)
    case ExpireStarted =>
      x.op.Hold? && exists i :: i in y.rows && i in db.bookings && i in x.seen && StaleHold(db.bookings[i], x.op.m, x.op.s, x.ts)
    case ExpireDone =>
      x.op.Hold? && exists i :: i in y.rows && (Clashes(y.rows[i], x.op) || (i in db.bookings && Clashes(db.bookings[i], x.op)))
    case Inserted => x.op.Hold? && (x.op.key in y.dels || x.op.key in y.adds)
    case Snapped => exists i :: i in y.rows && WouldUpdate(db, x, i)
    case _ => false
  }

  ghost predicate WaitsFor(s: State, t: nat, u: nat) {
    t in s.txs && u in s.txs && t != u && Keeps(s.w.db, s.txs[u], s.txs[t])
  }

  /** Move `mv` takes transaction `t` on, other than by giving up. */
  ghost predicate TakesOn(s: State, t: nat, mv: Move, s': State) {
    Erasure.MoverOf(mv) == Some(t) && mv != Abort(t) && Next(s, mv, s')
  }

  ghost predicate CanGoOn(s: State, t: nat) {
    exists mv, s' :: TakesOn(s, t, mv, s')
  }

  /** The INSERT of a hold on a seat that the catalogue does not have can only fail. */
  ghost predicate LacksItsSeat(s: State, t: nat) {
    HoldAt(s, t, ExpireDone) && ((s.txs[t].op.m, s.txs[t].op.s) !in s.w.db.seats || s.txs[t].op.m !in s.w.db.matches)
  }

  // ---------------------------------------------------------------- where a transaction can be

  /** The program counters of each operation, and that nothing is written or deleted before its lock. */
  predicate InPlace(x: Tx) {
    match x.pc
    case Snapped => !x.op.Hold? && Unwritten(x)
    case CasDone => x.op.Cancel?
    case RefundDone => x.op.Cancel?
    case Begun => Unwritten(x)
    case LookedUp => x.op.Hold? && Unwritten(x)
    case Rejected => x.op.Hold? && Unwritten(x)
    case Ready => true
    case _ => x.op.Hold?
  }

  predicate Unwritten(x: Tx) {
    x.rows == map[] && x.dels == {} && x.adds == map[]
  }

  ghost predicate AllInPlace(s: State) {
    forall t :: t in s.txs ==> InPlace(s.txs[t])
  }

  lemma OthersStay(s: State, mv: Move, s': State, t: nat)
    requires NextHold(s, mv, s') && t in s'.txs && Erasure.MoverOf(mv) != Some(t)
    ensures t in s.txs && s'.txs[t] == s.txs[t]
  {
  }

  lemma PastItsLock(s: State, mv: Move, s': State, t: nat)
    requires NextHold(s, mv, s') && t in s'.txs && Erasure.MoverOf(mv) == Some(t)
    requires !mv.LookupProceeds? && !mv.Begin? && !mv.RejectRow? && !mv.RejectKey?
    ensures InPlace(s'.txs[t])
  {
  }

  lemma AtItsStart(s: State, mv: Move, s': State, t: nat)
    requires NextHold(s, mv, s') && (mv == Begin(t) || (mv.LookupProceeds? && mv.t == t)) && (t in s.txs ==> InPlace(s.txs[t]))
    ensures t in s'.txs && InPlace(s'.txs[t])
  {
  }

  lemma AtItsEnd(s: State, mv: Move, s': State, t: nat)
    requires NextHold(s, mv, s') && (mv == RejectRow(t) || mv == RejectKey(t))
    ensures t in s'.txs && InPlace(s'.txs[t])
  {
  }

  lemma HoldMoveStaysInPlace(s: State, mv: Move, s': State, t: nat)
    requires AllInPlace(s) && NextHold(s, mv, s') && t in s'.txs
    ensures InPlace(s'.txs[t])
  {
    if Erasure.MoverOf(mv) != Some(t) {
      OthersStay(s, mv, s', t);
    } else if mv.LookupProceeds? || mv.Begin? {
      AtItsStart(s, mv, s', t);
    } else if mv.RejectRow? || mv.RejectKey? {
      AtItsEnd(s, mv, s', t);
    } else {
      PastItsLock(s, mv, s', t);
    }
  }

  lemma OtherMoveStaysInPlace(s: State, mv: Move, s': State, t: nat)
    requires AllInPlace(s) && NextOther(s, mv, s') && t in s'.txs
    ensures InPlace(s'.txs[t])
  {
    assert t in s.txs ==> InPlace(s.txs[t]);
  }

  lemma {:induction false} RunStaysInPlace(ss: seq<State>, mvs: seq<Move>, k: nat)
    requires Runs.IsRun(ss, mvs) && k < |ss|
    ensures AllInPlace(ss[k])
  {
    if k > 0 {
      RunStaysInPlace(ss, mvs, k - 1);
      assert Next(ss[k - 1], mvs[k - 1], ss[k]);
      forall t | t in ss[k].txs ensures InPlace(ss[k].txs[t]) {
        if NextHold(ss[k - 1], mvs[k - 1], ss[k]) {
          HoldMoveStaysInPlace(ss[k - 1], mvs[k - 1], ss[k], t);
        } else {
          OtherMoveStaysInPlace(ss[k - 1], mvs[k - 1], ss[k], t);
        }
      }
    }
  }

  // ---------------------------------------------------------------- going on or waiting

  /** No other transaction keeps `t` from its next statement. */
  ghost predicate Unkept(s: State, t: nat) {
    forall u :: !WaitsFor(s, t, u)
  }

  function With(s: State, t: nat, x: Tx): State {
    s.(txs := s.txs[t := x])
  }

  lemma LockingGoesOn(s: State, t: nat)
    requires t in s.txs && s.txs[t].op.Hold? && s.txs[t].pc in {LookedUp, Begun, Locked} && Unkept(s, t)
    ensures CanGoOn(s, t)
  {
    var x := s.txs[t];
    match x.pc
    case LookedUp => assert TakesOn(s, t, Begin(t), With(s, t, x.(pc := Begun, ts := s.w.clock)));
    case Begun =>
      forall u | u in s.txs && HasLock(s.txs[u]) ensures s.txs[u].op.m != x.op.m || s.txs[u].op.b != x.op.b {
        assert !WaitsFor(s, t, u);
      }
      assert TakesOn(s, t, TakeLock(t), With(s, t, x.(pc := Locked)));
    case Locked =>
      forall k, u | k in KeyCleared'(x, s.w.db.keys).dels && u in s.txs && u != t ensures k !in s.txs[u].dels {
        assert !WaitsFor(s, t, u);
      }
      assert TakesOn(s, t, ClearKey(t), With(s, t, KeyCleared'(x, s.w.db.keys)));
  }

  lemma CancellingGoesOn(s: State, t: nat)
    requires t in s.txs && s.txs[t].op.Hold? && s.txs[t].pc in {KeyCleared, CancelStarted} && Unkept(s, t)
    ensures CanGoOn(s, t)
  {
    var x, bs := s.txs[t], s.w.db.bookings;
    if x.pc == KeyCleared {
      assert TakesOn(s, t, StartCancel(t), With(s, t, Seen(x, CancelStarted, bs)));
    } else {
      forall i, u | i in Victims(bs, x) && u in s.txs && u != t ensures i !in s.txs[u].rows {
        assert !WaitsFor(s, t, u);
      }
      assert TakesOn(s, t, RunCancel(t), With(s, t, x.(pc := CancelDone, rows := Victims(bs, x))));
    }
  }

  lemma ExpiringGoesOn(s: State, t: nat)
    requires t in s.txs && s.txs[t].op.Hold? && s.txs[t].pc in {CancelDone, ExpireStarted} && Unkept(s, t)
    ensures CanGoOn(s, t)
  {
    var x, bs := s.txs[t], s.w.db.bookings;
    if x.pc == CancelDone {
      assert TakesOn(s, t, StartExpire(t), With(s, t, Seen(x, ExpireStarted, bs)));
    } else {
      forall i, u | i in Stales(bs, x) && u in s.txs && u != t ensures i !in s.txs[u].rows {
        assert !WaitsFor(s, t, u);
      }
      assert TakesOn(s, t, RunExpire(t), With(s, t, x.(pc := ExpireDone, rows := x.rows + Stales(bs, x))));
    }
  }

  lemma RowInsertGoesOn(s: State, t: nat)
    requires HoldAt(s, t, ExpireDone) && Unkept(s, t) && !LacksItsSeat(s, t)
    ensures CanGoOn(s, t)
  {
    var x, bs := s.txs[t], s.w.db.bookings;
    forall u, i | u in s.txs && u != t && i in s.txs[u].rows
      ensures !Clashes(s.txs[u].rows[i], x.op)
    {
      assert !WaitsFor(s, t, u);
    }
    if i :| i in bs && i !in x.rows && Clashes(bs[i], x.op) {
      forall u | u in s.txs && u != t ensures i !in s.txs[u].rows {
        assert !WaitsFor(s, t, u);
      }
      assert TakesOn(s, t, RejectRow(t), s.(txs := s.txs[t := Failed'(x)], nextId := s.nextId + 1));
    } else {
      forall u, i | u in s.txs && u != t && i in s.txs[u].rows
        ensures !ActiveAt(s.txs[u].rows[i], x.op.m, x.op.s) && !HeldBy(s.txs[u].rows[i], x.op.m, x.op.b)
      {
        assert !Clashes(s.txs[u].rows[i], x.op);
      }
      assert IndexesQuiet(s, t, x.op.m, x.op.s, x.op.b);
      forall i | i in bs && i !in x.rows ensures !ActiveAt(bs[i], x.op.m, x.op.s) && !HeldBy(bs[i], x.op.m, x.op.b) {
        assert !Clashes(bs[i], x.op);
      }
      assert TakesOn(s, t, InsertRow(t), s.(txs := s.txs[t := WithRow(x, s.nextId)], nextId := s.nextId + 1));
    }
  }

  lemma KeyInsertGoesOn(s: State, t: nat)
    requires HoldAt(s, t, Inserted) && Unkept(s, t)
    ensures CanGoOn(s, t)
  {
    var x := s.txs[t];
    forall u | u in s.txs && u != t ensures x.op.key !in s.txs[u].dels && x.op.key !in s.txs[u].adds {
      assert !WaitsFor(s, t, u);
    }
    if x.op.key in s.w.db.keys && x.op.key !in x.dels {
      assert TakesOn(s, t, RejectKey(t), With(s, t, Failed'(x)));
    } else {
      assert TakesOn(s, t, InsertKey(t), With(s, t, WithKey(x)));
    }
  }

  /** A rejected hold is always answered: with the key's booking, as a reuse of the key, or as refused. */
  lemma RecoveryGoesOn(s: State, t: nat)
    requires HoldAt(s, t, Rejected) && s.txs[t].ts <= s.w.clock
    ensures CanGoOn(s, t)
  {
    var x, s' := s.txs[t], s.(txs := s.txs - {t});
    if LookupGoesOn(s.w, x.op, s.w.clock) {
      assert TakesOn(s, t, RecoveryRefuses(t, s.w.clock), s');
    } else if A.ReuseOk(s.w, x.op.m, x.op.s, x.op.b, x.op.key) {
      assert TakesOn(s, t, RecoveryMismatches(t), s');
    } else {
      var id :| A.ReplayOk(s.w, x.op.m, x.op.s, x.op.b, x.op.key, id, s.w.clock);
      assert TakesOn(s, t, RecoveryReplays(t, id, s.w.clock), s');
    }
  }

  lemma ReadyGoesOn(s: State, t: nat)
    requires At(s, t, Ready)
    ensures CanGoOn(s, t)
  {
    assert TakesOn(s, t, Commit(t), s.(w := Applied(s.w, s.txs[t]), txs := s.txs - {t}));
  }

  lemma StatementGoesOn(s: State, t: nat)
    requires t in s.txs && !s.txs[t].op.Hold? && InPlace(s.txs[t]) && s.txs[t].pc != Snapped
    ensures CanGoOn(s, t)
  {
    var x := s.txs[t];
    match x.pc
    case Begun => assert TakesOn(s, t, TakeSnapshot(t), With(s, t, Seen(x, Snapped, s.w.db.bookings)));
    case CasDone =>
      assert TakesOn(s, t, InsertRefund(t), With(s, t, x.(pc := RefundDone, refundId := s.nextRefund)).(nextRefund := s.nextRefund + 1));
    case RefundDone =>
      assert TakesOn(s, t, InsertEvent(t), With(s, t, x.(pc := Ready, eventId := s.nextEvent)).(nextEvent := s.nextEvent + 1));
    case Ready => ReadyGoesOn(s, t);
  }

  lemma ItsRowIsFree(s: State, t: nat)
    requires At(s, t, Snapped) && Unkept(s, t)
    requires s.txs[t].op.Confirm? || s.txs[t].op.Release? || s.txs[t].op.Cancel?
    ensures WouldUpdate(s.w.db, s.txs[t], s.txs[t].op.id) ==> RowFree(s, t, s.txs[t].op.id)
  {
    forall u | u in s.txs && u != t && WouldUpdate(s.w.db, s.txs[t], s.txs[t].op.id) ensures s.txs[t].op.id !in s.txs[u].rows {
      assert !WaitsFor(s, t, u);
    }
  }

  lemma ConfirmGoesOn(s: State, t: nat)
    requires At(s, t, Snapped) && s.txs[t].op.Confirm?
    requires WouldUpdate(s.w.db, s.txs[t], s.txs[t].op.id) ==> RowFree(s, t, s.txs[t].op.id)
    ensures CanGoOn(s, t)
  {
    var x, bs := s.txs[t], s.w.db.bookings;
    if x.op.id in x.seen && A.Confirmable(bs, x.op.id, x.op.b, x.ts) {
      assert TakesOn(s, t, RunConfirm(t), With(s, t, x.(pc := Ready, rows := map[x.op.id := ConfirmedRow(bs[x.op.id], x.ts)])));
    } else {
      assert TakesOn(s, t, FindNothing(t), s.(txs := s.txs - {t}));
    }
  }

  lemma ReleaseGoesOn(s: State, t: nat)
    requires At(s, t, Snapped) && s.txs[t].op.Release?
    requires WouldUpdate(s.w.db, s.txs[t], s.txs[t].op.id) ==> RowFree(s, t, s.txs[t].op.id)
    ensures CanGoOn(s, t)
  {
    var x, bs := s.txs[t], s.w.db.bookings;
    if x.op.id in x.seen && A.Releasable(bs, x.op.id, x.op.b) {
      assert TakesOn(s, t, RunRelease(t), With(s, t, x.(pc := Ready, rows := map[x.op.id := CancelledRow(bs[x.op.id], x.ts)])));
    } else {
      assert TakesOn(s, t, FindNothing(t), s.(txs := s.txs - {t}));
    }
  }

  lemma CancelGoesOn(s: State, t: nat)
    requires At(s, t, Snapped) && s.txs[t].op.Cancel?
    requires WouldUpdate(s.w.db, s.txs[t], s.txs[t].op.id) ==> RowFree(s, t, s.txs[t].op.id)
    ensures CanGoOn(s, t)
  {
    var x, bs := s.txs[t], s.w.db.bookings;
    if x.op.id in x.seen && A.Cancellable(s.w.db, x.op.id, x.op.b, x.ts) {
      assert TakesOn(s, t, RunCas(t), With(s, t, x.(pc := CasDone, rows := map[x.op.id := CancelledRow(bs[x.op.id], x.ts)])));
    } else {
      assert TakesOn(s, t, FindNothing(t), s.(txs := s.txs - {t}));
    }
  }

  /** A sweep and a prune pass over what others have written. */
  lemma SkippingGoesOn(s: State, t: nat)
    requires At(s, t, Snapped) && (s.txs[t].op.Sweep? || s.txs[t].op.Prune?)
    ensures CanGoOn(s, t)
  {
    var x := s.txs[t];
    if x.op.Sweep? {
      assert TakesOn(s, t, RunSweep(t, {}), With(s, t, x.(pc := Ready, rows := SweptRows(s.w.db.bookings, {}))));
    } else {
      assert TakesOn(s, t, RunPrune(t, {}), With(s, t, x.(pc := Ready, dels := {})));
    }
  }

  lemma UnkeptGoesOn(s: State, t: nat)
    requires t in s.txs && InPlace(s.txs[t]) && s.txs[t].ts <= s.w.clock && Unkept(s, t) && !LacksItsSeat(s, t)
    ensures CanGoOn(s, t)
  {
    var x := s.txs[t];
    if !x.op.Hold? {
      if x.pc == Snapped && (x.op.Sweep? || x.op.Prune?) {
        SkippingGoesOn(s, t);
      } else if x.pc == Snapped {
        ItsRowIsFree(s, t);
        if x.op.Confirm? {
          ConfirmGoesOn(s, t);
        } else if x.op.Release? {
          ReleaseGoesOn(s, t);
        } else {
          CancelGoesOn(s, t);
        }
      } else {
        StatementGoesOn(s, t);
      }
    } else if x.pc in {LookedUp, Begun, Locked} {
      LockingGoesOn(s, t);
    } else if x.pc in {KeyCleared, CancelStarted} {
      CancellingGoesOn(s, t);
    } else if x.pc in {CancelDone, ExpireStarted} {
      ExpiringGoesOn(s, t);
    } else if x.pc == ExpireDone {
      RowInsertGoesOn(s, t);
    } else if x.pc == Inserted {
      KeyInsertGoesOn(s, t);
    } else if x.pc == Rejected {
      RecoveryGoesOn(s, t);
    } else {
      ReadyGoesOn(s, t);
    }
  }

  /** The only move on from a program counter of the hold path that can wait. */
  function NextMove(t: nat, pc: Pc): Move
    requires pc in {Begun, Locked, CancelStarted, ExpireStarted, Inserted}
  {
    match pc
    case Begun => TakeLock(t)
    case Locked => ClearKey(t)
    case CancelStarted => RunCancel(t)
    case ExpireStarted => RunExpire(t)
    case Inserted => InsertKey(t)
  }

  lemma HoldHasOneMove(s: State, t: nat, mv: Move, s': State)
    requires t in s.txs && s.txs[t].op.Hold? && s.txs[t].pc in {Begun, Locked, CancelStarted, ExpireStarted, Inserted}
    requires TakesOn(s, t, mv, s')
    ensures NextHold(s, mv, s') && (mv == NextMove(t, s.txs[t].pc) || (s.txs[t].pc == Inserted && mv == RejectKey(t)))
  {
  }

  lemma LockWaits(s: State, t: nat, u: nat, s': State)
    requires WaitsFor(s, t, u) && s.txs[t].op.Hold? && s.txs[t].pc in {Begun, Locked}
    ensures !NextHold(s, NextMove(t, s.txs[t].pc), s')
  {
    if s.txs[t].pc == Locked {
      assert s.txs[t].op.key in KeyCleared'(s.txs[t], s.w.db.keys).dels;
    }
  }

  lemma CancelWaits(s: State, t: nat, u: nat, s': State)
    requires WaitsFor(s, t, u) && HoldAt(s, t, CancelStarted)
    ensures !NextHold(s, RunCancel(t), s')
  {
    var x, bs := s.txs[t], s.w.db.bookings;
    var i :| i in s.txs[u].rows && i in bs && i in x.seen && OtherHold(bs[i], x.op.m, x.op.s, x.op.b);
    assert i in Victims(bs, x) && !RowFree(s, t, i);
  }

  lemma ExpireWaits(s: State, t: nat, u: nat, s': State)
    requires WaitsFor(s, t, u) && HoldAt(s, t, ExpireStarted)
    ensures !NextHold(s, RunExpire(t), s')
  {
    var x, bs := s.txs[t], s.w.db.bookings;
    var i :| i in s.txs[u].rows && i in bs && i in x.seen && StaleHold(bs[i], x.op.m, x.op.s, x.ts);
    assert i in Stales(bs, x) && !RowFree(s, t, i);
  }

  lemma KeyWaits(s: State, t: nat, u: nat, s': State)
    requires WaitsFor(s, t, u) && HoldAt(s, t, Inserted)
    ensures !NextHold(s, InsertKey(t), s') && !NextHold(s, RejectKey(t), s')
  {
    assert !KeyFree(s, t, s.txs[t].op.key);
  }

  lemma KeptHoldIsStuck(s: State, t: nat, u: nat, mv: Move, s': State)
    requires WaitsFor(s, t, u) && s.txs[t].op.Hold? && s.txs[t].pc in {Begun, Locked, CancelStarted, ExpireStarted, Inserted}
    ensures !TakesOn(s, t, mv, s')
  {
    if TakesOn(s, t, mv, s') {
      HoldHasOneMove(s, t, mv, s');
      match s.txs[t].pc
      case CancelStarted => CancelWaits(s, t, u, s');
      case ExpireStarted => ExpireWaits(s, t, u, s');
      case Inserted => KeyWaits(s, t, u, s');
      case _ => LockWaits(s, t, u, s');
    }
  }

  lemma StatementHasTwoMoves(s: State, t: nat, mv: Move, s': State)
    requires At(s, t, Snapped) && (s.txs[t].op.Confirm? || s.txs[t].op.Release? || s.txs[t].op.Cancel?) && TakesOn(s, t, mv, s')
    ensures NextOther(s, mv, s')
    ensures mv == FindNothing(t) || mv == match s.txs[t].op case Confirm(_, _) => RunConfirm(t) case Release(_, _) => RunRelease(t) case _ => RunCas(t)
  {
  }

  lemma KeptStatementIsStuck(s: State, t: nat, u: nat, mv: Move, s': State)
    requires WaitsFor(s, t, u) && s.txs[t].pc == Snapped
    ensures !TakesOn(s, t, mv, s')
  {
    if TakesOn(s, t, mv, s') {
      var i :| i in s.txs[u].rows && WouldUpdate(s.w.db, s.txs[t], i);
      assert !RowFree(s, t, i);
      StatementHasTwoMoves(s, t, mv, s');
    }
  }

  /** Waiting is waiting: unless its INSERT can fail at once on a committed row, a transaction that is kept
      by another cannot move but by giving up. */
  lemma KeptIsStuck(s: State, t: nat, u: nat)
    requires WaitsFor(s, t, u) && s.txs[t].pc != ExpireDone
    ensures !CanGoOn(s, t)
  {
    if mv, s' :| TakesOn(s, t, mv, s') {
      if s.txs[t].pc == Snapped {
        KeptStatementIsStuck(s, t, u, mv, s');
      } else {
        KeptHoldIsStuck(s, t, u, mv, s');
      }
    }
  }

  /** A committed row that nobody is rewriting has one of the new row's index keys: the INSERT fails at once. */
  ghost predicate MeetsARow(s: State, t: nat) {
    HoldAt(s, t, ExpireDone) &&
    exists i :: i in s.w.db.bookings && i !in s.txs[t].rows && Clashes(s.w.db.bookings[i], s.txs[t].op) && RowFree(s, t, i)
  }

  lemma InsertHasTwoMoves(s: State, t: nat, mv: Move, s': State)
    requires HoldAt(s, t, ExpireDone) && TakesOn(s, t, mv, s')
    ensures NextHold(s, mv, s') && (mv == InsertRow(t) || mv == RejectRow(t))
  {
  }

  lemma QuietIsUnkept(s: State, t: nat, u: nat)
    requires HoldAt(s, t, ExpireDone) && u in s.txs && u != t && WritesApart(s.txs[t], s.txs[u])
    requires KeysUnoccupied(s.w.db.bookings, s.txs[t]) && IndexesQuiet(s, t, s.txs[t].op.m, s.txs[t].op.s, s.txs[t].op.b)
    ensures !WaitsFor(s, t, u)
  {
    var x, y, bs := s.txs[t], s.txs[u], s.w.db.bookings;
    forall i | i in y.rows ensures !Clashes(y.rows[i], x.op) && (i in bs ==> !Clashes(bs[i], x.op)) {
      assert i !in x.rows;
    }
  }

  lemma InsertIsUnkept(s: State, t: nat, u: nat, s': State)
    requires Inv(s) && HoldAt(s, t, ExpireDone) && NextHold(s, InsertRow(t), s')
    ensures !WaitsFor(s, t, u)
  {
    if u in s.txs && u != t {
      assert Apart(s.txs[t], s.txs[u]);
      QuietIsUnkept(s, t, u);
    }
  }

  lemma RejectionMeetsARow(s: State, t: nat, s': State)
    requires HoldAt(s, t, ExpireDone) && NextHold(s, RejectRow(t), s')
    ensures MeetsARow(s, t)
  {
  }

  lemma MeetingARowGoesOn(s: State, t: nat)
    requires MeetsARow(s, t)
    ensures CanGoOn(s, t)
  {
    assert TakesOn(s, t, RejectRow(t), s.(txs := s.txs[t := Failed'(s.txs[t])], nextId := s.nextId + 1));
  }

  lemma InsertGoesOnIff(s: State, t: nat)
    requires Inv(s) && HoldAt(s, t, ExpireDone)
    ensures CanGoOn(s, t) <==> MeetsARow(s, t) || (Unkept(s, t) && !LacksItsSeat(s, t))
  {
    if MeetsARow(s, t) {
      MeetingARowGoesOn(s, t);
    } else if mv, s' :| TakesOn(s, t, mv, s') {
      InsertHasTwoMoves(s, t, mv, s');
      if mv == RejectRow(t) {
        RejectionMeetsARow(s, t, s');
      }
      forall u ensures !WaitsFor(s, t, u) {
        InsertIsUnkept(s, t, u, s');
      }
    } else if Unkept(s, t) && !LacksItsSeat(s, t) {
      RowInsertGoesOn(s, t);
    }
  }

  /** In every state of every run, an unfinished transaction has a next move besides giving up iff no other
      transaction has what it needs; for the INSERT of a hold, iff it fails at once on a committed row, or the
      seat exists and no other transaction has what it needs. */
  lemma GoesOnIff(ss: seq<State>, mvs: seq<Move>, k: nat, t: nat)
    requires Runs.IsRun(ss, mvs) && k < |ss| && t in ss[k].txs
    ensures CanGoOn(ss[k], t) <==>
            if HoldAt(ss[k], t, ExpireDone) then MeetsARow(ss[k], t) || (Unkept(ss[k], t) && !LacksItsSeat(ss[k], t))
            else Unkept(ss[k], t)
  {
    Runs.RunKeepsInv(ss, mvs, k);
    RunStaysInPlace(ss, mvs, k);
    assert TxOk(ss[k], ss[k].txs[t]) && InPlace(ss[k].txs[t]);
    if HoldAt(ss[k], t, ExpireDone) {
      InsertGoesOnIff(ss[k], t);
    } else if Unkept(ss[k], t) {
      UnkeptGoesOn(ss[k], t);
    } else {
      var u :| WaitsFor(ss[k], t, u);
      KeptIsStuck(ss[k], t, u);
    }
  }

  // ---------------------------------------------------------------- deadlock

  /** Whoever keeps others waiting while it waits itself is a hold that has its lock. */
  lemma OnlyLockedHoldsKeepAndWait(ss: seq<State>, mvs: seq<Move>, k: nat, t: nat, u: nat, v: nat)
    requires Runs.IsRun(ss, mvs) && k < |ss| && WaitsFor(ss[k], t, u) && WaitsFor(ss[k], u, v)
    ensures ss[k].txs[u].op.Hold? && HasLock(ss[k].txs[u])
  {
    RunStaysInPlace(ss, mvs, k);
    assert InPlace(ss[k].txs[u]);
  }

  /** Two requests of one buyer for one match never wait for each other. */
  lemma OneBuyerDoesNotDeadlock(ss: seq<State>, mvs: seq<Move>, k: nat, t: nat, u: nat)
    requires Runs.IsRun(ss, mvs) && k < |ss| && WaitsFor(ss[k], t, u) && WaitsFor(ss[k], u, t)
    ensures var x, y := ss[k].txs[t].op, ss[k].txs[u].op;
            x.Hold? && y.Hold? && (x.m != y.m || x.b != y.b)
  {
    OnlyLockedHoldsKeepAndWait(ss, mvs, k, t, u, t);
    OnlyLockedHoldsKeepAndWait(ss, mvs, k, u, t, u);
    Runs.RunKeepsInv(ss, mvs, k);
    assert Apart(ss[k].txs[t], ss[k].txs[u]);
  }

  // ---------------------------------------------------------------- two buyers who deadlock

  /** One match with two seats. */
  const HALL: State :=
    State(A.World(Db(map[("m", "s") := "A", ("m", "t") := "A"], map["m" := 1000], map[], map[], map[], map[]), 0, map[]), map[], 1, 1, 1)

  /** A hold that a buyer has had since 0 and that is over at 10. */
  function Had(s: string, b: string): Booking {
    HeldRow("m", s, b, 0, 10)
  }

  function Ask(s: string, b: string): Op {
    Hold("m", s, b, 10, "")
  }

  lemma PlaceFirst() returns (ss: seq<State>, mvs: seq<Move>, s: State)
    ensures IsPath(Next, ss, mvs) && ss[0] == HALL && ss[|mvs|] == s && s.txs == map[] && s.w.clock == 0
    ensures s.w.db == HALL.w.db.(bookings := map[1 := Had("s", "b")]) && s.nextId == 2
  {
    ss, mvs, s := Scenarios.HoldAlone(HALL, 1, Ask("s", "b"));
    Scenarios.NothingToClear(map[], "m", "s", "b", 0);
    PlaceGoesOn(HALL, Ask("s", "b"));
    assert HALL.txs == map[];
  }

  lemma PlaceSecond(s: State) returns (ss: seq<State>, mvs: seq<Move>, s': State)
    requires Inv(s) && s.txs == map[] && s.w.clock == 0
    requires s.w.db == HALL.w.db.(bookings := map[1 := Had("s", "b")]) && s.nextId == 2
    ensures IsPath(Next, ss, mvs) && ss[0] == s && ss[|mvs|] == s' && s'.txs == map[] && s'.w.clock == 0
    ensures s'.w.db == HALL.w.db.(bookings := map[1 := Had("s", "b"), 2 := Had("t", "c")])
  {
    ss, mvs, s' := Scenarios.HoldAlone(s, 1, Ask("t", "c"));
    PlaceGoesOn(s, Ask("t", "c"));
    assert Cleared(s.w.db.bookings, "m", "t", "c", 0) == s.w.db.bookings;
    assert map[1 := Had("s", "b")][2 := Had("t", "c")] == map[1 := Had("s", "b"), 2 := Had("t", "c")];
  }

  /** Two buyers have a seat each, and both holds are over. */
  ghost predicate BothHad(s: State) {
    && s.w.clock == 11 && s.w.db == HALL.w.db.(bookings := map[1 := Had("s", "b"), 2 := Had("t", "c")])
  }

  lemma HoldsLapse() returns (ss: seq<State>, mvs: seq<Move>, s: State)
    ensures IsPath(Next, ss, mvs) && ss[0] == HALL && ss[|mvs|] == s && s.txs == map[] && BothHad(s)
  {
    var s1, ts, nvs, s2;
    ss, mvs, s1 := PlaceFirst();
    PathKeepsInv(ss, mvs, |mvs|);
    ts, nvs, s2 := PlaceSecond(s1);
    Chain(Next, ss, mvs, ts, nvs);
    ss, mvs := ss + ts[1..], mvs + nvs;
    s := s2.(w := s2.w.(clock := 11));
    Scenarios.TickEnabled(s2, 11);
    Extend(Next, ss, mvs, Tick(11), s);
    ss, mvs := ss + [s], mvs + [Tick(11)];
  }

  /** A buyer's request for the other's seat that has given up the buyer's own and now looks for what to expire. */
  function Swapping(s: string, b: string, i: Id, own: Booking): Tx {
    Tx(Ask(s, b), ExpireStarted, 11, None, {1, 2}, map[i := CancelledRow(own, 11)], {}, map[], 0, 0, 0)
  }

  /** No other transaction is in the way of buyer `b`, whose own row is `i`. */
  ghost predicate FreeFor(s: State, t: nat, b: string, i: Id) {
    forall u :: u in s.txs && u != t ==> s.txs[u].op.Hold? && s.txs[u].op.b != b && i !in s.txs[u].rows && s.txs[u].dels == {}
  }

  function Locking(seat: string, b: string): Tx {
    Fresh(Ask(seat, b), Locked, 11, None, {})
  }

  lemma TakesLock(s: State, t: nat, seat: string, b: string, i: Id)
    requires s.w.clock == 11 && FreeFor(s, t, b, i) && t !in s.txs
    ensures var x := Fresh(Ask(seat, b), LookedUp, 11, None, {});
            IsPath(Next, [s, With(s, t, x), With(s, t, x.(pc := Begun)), With(s, t, Locking(seat, b))],
                   [LookupProceeds(t, x.op, 11), Begin(t), TakeLock(t)])
  {
    var x := Fresh(Ask(seat, b), LookedUp, 11, None, {});
    var s1, s2, s3 := With(s, t, x), With(s, t, x.(pc := Begun)), With(s, t, Locking(seat, b));
    assert s2 == With(s1, t, x.(pc := Begun)) && s3 == With(s2, t, Locking(seat, b));
    assert NextHold(s, LookupProceeds(t, x.op, 11), s1);
    assert NextHold(s1, Begin(t), s2);
    assert NextHold(s2, TakeLock(t), s3);
  }

  /** The buyer's one hold besides the seat asked for is row `i`, and both rows were seen. */
  ghost predicate GivesUp(s: State, t: nat, seat: string, b: string, i: Id) {
    && s.w.clock == 11 && s.w.db.bookings.Keys == {1, 2} && i in {1, 2} && FreeFor(s, t, b, i)
    && forall j :: j in s.w.db.bookings ==> (OtherHold(s.w.db.bookings[j], "m", seat, b) <==> i == j)
  }

  lemma GivesUpOwn(s: State, t: nat, seat: string, b: string, i: Id)
    requires GivesUp(s, t, seat, b, i)
    requires t in s.txs && s.txs[t] == Fresh(Ask(seat, b), CancelStarted, 11, None, {1, 2})
    ensures IsPath(Next, [s, With(s, t, Swapping(seat, b, i, s.w.db.bookings[i]).(pc := CancelDone))], [RunCancel(t)])
  {
    var x := s.txs[t];
    assert Victims(s.w.db.bookings, x) == map[i := CancelledRow(s.w.db.bookings[i], 11)];
    assert RowFree(s, t, i);
    assert NextHold(s, RunCancel(t), With(s, t, Swapping(seat, b, i, s.w.db.bookings[i]).(pc := CancelDone)));
  }

  lemma StartsCancel(s: State, t: nat, seat: string, b: string, i: Id)
    requires GivesUp(s, t, seat, b, i) && t in s.txs && s.txs[t] == Locking(seat, b)
    ensures var x := Fresh(Ask(seat, b), KeyCleared, 11, None, {});
            IsPath(Next, [s, With(s, t, x), With(s, t, x.(pc := CancelStarted, seen := {1, 2}))], [ClearKey(t), StartCancel(t)])
  {
    var x := Fresh(Ask(seat, b), KeyCleared, 11, None, {});
    var s1, s2 := With(s, t, x), With(s, t, x.(pc := CancelStarted, seen := {1, 2}));
    assert s2 == With(s1, t, x.(pc := CancelStarted, seen := {1, 2}));
    assert NextHold(s, ClearKey(t), s1);
    assert NextHold(s1, StartCancel(t), s2);
  }

  lemma StartsExpiry(s: State, t: nat, seat: string, b: string, i: Id, own: Booking)
    requires s.w.db.bookings.Keys == {1, 2} && t in s.txs && s.txs[t] == Swapping(seat, b, i, own).(pc := CancelDone)
    ensures IsPath(Next, [s, With(s, t, Swapping(seat, b, i, own))], [StartExpire(t)])
  {
    assert NextHold(s, StartExpire(t), With(s, t, Swapping(seat, b, i, own)));
  }

  lemma WithTwice(s: State, t: nat, x: Tx, y: Tx)
    ensures With(With(s, t, x), t, y) == With(s, t, y)
  {
    assert s.txs[t := x][t := y] == s.txs[t := y];
  }

  lemma Turns(s: State, t: nat, seat: string, b: string, i: Id) returns (ss: seq<State>, mvs: seq<Move>)
    requires GivesUp(s, t, seat, b, i) && t in s.txs && s.txs[t] == Locking(seat, b)
    ensures IsPath(Next, ss, mvs) && ss[0] == s && ss[|mvs|] == With(s, t, Swapping(seat, b, i, s.w.db.bookings[i]))
  {
    var x, y := Fresh(Ask(seat, b), KeyCleared, 11, None, {}), Swapping(seat, b, i, s.w.db.bookings[i]);
    var seen := x.(pc := CancelStarted, seen := {1, 2});
    StartsCancel(s, t, seat, b, i);
    ss, mvs := [s, With(s, t, x), With(s, t, seen)], [ClearKey(t), StartCancel(t)];
    GivesUpOwn(With(s, t, seen), t, seat, b, i);
    WithTwice(s, t, seen, y.(pc := CancelDone));
    Extend(Next, ss, mvs, RunCancel(t), With(s, t, y.(pc := CancelDone)));
    ss, mvs := ss + [With(s, t, y.(pc := CancelDone))], mvs + [RunCancel(t)];
    StartsExpiry(With(s, t, y.(pc := CancelDone)), t, seat, b, i, s.w.db.bookings[i]);
    WithTwice(s, t, y.(pc := CancelDone), y);
    Extend(Next, ss, mvs, StartExpire(t), With(s, t, y));
    ss, mvs := ss + [With(s, t, y)], mvs + [StartExpire(t)];
  }

  /** Buyer `b` asks for the other's seat, gives up its own, and turns to what there is to expire. */
  lemma Swaps(s: State, t: nat, seat: string, b: string, i: Id) returns (ss: seq<State>, mvs: seq<Move>)
    requires GivesUp(s, t, seat, b, i) && t !in s.txs
    ensures IsPath(Next, ss, mvs) && ss[0] == s && ss[|mvs|] == With(s, t, Swapping(seat, b, i, s.w.db.bookings[i]))
  {
    var x := Fresh(Ask(seat, b), LookedUp, 11, None, {});
    TakesLock(s, t, seat, b, i);
    ss, mvs := [s, With(s, t, x), With(s, t, x.(pc := Begun)), With(s, t, Locking(seat, b))], [LookupProceeds(t, x.op, 11), Begin(t), TakeLock(t)];
    var ts, nvs := Turns(With(s, t, Locking(seat, b)), t, seat, b, i);
    Chain(Next, ss, mvs, ts, nvs);
    WithTwice(s, t, Locking(seat, b), Swapping(seat, b, i, s.w.db.bookings[i]));
    ss, mvs := ss + ts[1..], mvs + nvs;
  }

  /** A run from the initial state in which two buyers, each asking for the seat that the other's lapsed hold
      is on, wait for each other for good. */
  lemma TwoBuyersCanDeadlock() returns (ss: seq<State>, mvs: seq<Move>, s: State)
    ensures Runs.IsRun(ss, mvs) && ss[|mvs|] == s && s.txs.Keys == {1, 2}
    ensures s.txs[1].op == Ask("t", "b") && s.txs[2].op == Ask("s", "c")
    ensures WaitsFor(s, 1, 2) && WaitsFor(s, 2, 1) && !CanGoOn(s, 1) && !CanGoOn(s, 2)
  {
    var s1, ts, nvs;
    ss, mvs, s1 := HoldsLapse();
    ts, nvs := Swaps(s1, 1, "t", "b", 1);
    Chain(Next, ss, mvs, ts, nvs);
    ss, mvs := ss + ts[1..], mvs + nvs;
    var s2 := With(s1, 1, Swapping("t", "b", 1, Had("s", "b")));
    ts, nvs := Swaps(s2, 2, "s", "c", 2);
    Chain(Next, ss, mvs, ts, nvs);
    ss, mvs := ss + ts[1..], mvs + nvs;
    s := With(s2, 2, Swapping("s", "c", 2, Had("t", "c")));
    CrossedSwapsWait(s);
    KeptIsStuck(s, 1, 2);
    KeptIsStuck(s, 2, 1);
    forall k | 0 <= k < |mvs| ensures Next(ss[k], mvs[k], ss[k + 1]) {
      StepAt(Next, ss, mvs, k);
    }
  }

  lemma CrossedSwapsWait(s: State)
    requires BothHad(s) && s.txs == map[1 := Swapping("t", "b", 1, Had("s", "b")), 2 := Swapping("s", "c", 2, Had("t", "c"))]
    ensures WaitsFor(s, 1, 2) && WaitsFor(s, 2, 1)
  {
    assert 2 in s.txs[2].rows && StaleHold(s.w.db.bookings[2], "m", "t", 11);
    assert 1 in s.txs[1].rows && StaleHold(s.w.db.bookings[1], "m", "s", 11);
  }
}
