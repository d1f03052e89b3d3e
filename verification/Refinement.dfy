/**
 Every interleaving of statements refines the atomic machine: each move keeps the invariant
 of module Interleaving, and seen from the committed state it is the atomic step that its
 label names.
 */
module Refinement {
  import opened Options
  import opened Tables
  import opened Interleaving
  import A = Atomic

  // ---------------------------------------------------------------- private moves of the hold path

  /** What a hold transaction wrote are rewrites of committed rows, or its one new row. */
  lemma HoldTxOk(s: State, x: Tx)
    requires x.op.Hold? && x.ts <= s.w.clock && HoldOk(s.w.db, x, s.nextId) && SeenOk(s.w, x)
    ensures TxOk(s, x)
  {
    var bs := s.w.db.bookings;
    forall i | i in x.rows ensures if i in bs then A.Rewritten(bs[i], x.rows[i], x.ts) else HasRow(x) && i == x.id {
      assert HoldRow(bs, x, i) || (HasRow(x) && i == x.id);
    }
  }

  lemma HoldMoved(s: State, t: nat, x: Tx, s': State)
    requires Inv(s) && x.op.Hold? && x.ts <= s.w.clock
    requires s'.w == s.w && s'.txs == s.txs[t := x]
    requires s.nextId <= s'.nextId && s.nextRefund == s'.nextRefund && s.nextEvent == s'.nextEvent
    requires HoldOk(s.w.db, x, s'.nextId) && SeenOk(s.w, x)
    requires forall u :: u in s.txs && u != t ==> Apart(x, s.txs[u])
    ensures Inv(s')
  {
    HoldTxOk(s', x);
    PrivateKeepsInv(s, t, x, s');
  }

  /** A statement that writes nothing only has to respect the lock. */
  lemma QuietMoved(s: State, t: nat, x: Tx, s': State)
    requires Inv(s) && t in s.txs && x.op.Hold? && x.ts <= s.w.clock && Local(s, t, x, s')
    requires HoldOk(s.w.db, x, s.nextId) && SeenOk(s.w, x) && !HasRow(x)
    requires x.rows == s.txs[t].rows && x.dels == s.txs[t].dels && x.adds == s.txs[t].adds
    requires forall u :: u in s.txs && u != t ==> LocksApart(x, s.txs[u])
    ensures Inv(s')
  {
    forall u | u in s.txs && u != t ensures Apart(x, s.txs[u]) {
      assert Apart(s.txs[t], s.txs[u]);
    }
    HoldMoved(s, t, x, s');
  }

  lemma NewTxIsApart(op: Op, pc: Pc, ts: Time, stale: Option<Id>, seen: set<Id>, y: Tx)
    requires pc == LookedUp || pc == Begun
    ensures Apart(Fresh(op, pc, ts, stale, seen), y)
  {
  }

  lemma LookupOk(w: A.World, op: Op, at: Time, n: Id)
    requires A.Keyed(w) && op.Hold? && LookupGoesOn(w, op, at)
    ensures HoldOk(w.db, Fresh(op, LookedUp, w.clock, StaleMapping(w, op), {}), n)
  {
    if op.key != "" && op.key in w.db.keys {
      assert !A.ReuseOk(w, op.m, op.s, op.b, op.key);
    }
  }

  lemma LookupKeepsInv(s: State, t: nat, op: Op, at: Time, s': State)
    requires Inv(s) && NextHold(s, LookupProceeds(t, op, at), s')
    ensures Inv(s')
  {
    LookupOk(s.w, op, at, s.nextId);
    forall u | u in s.txs ensures Apart(s'.txs[t], s.txs[u]) {
      NewTxIsApart(op, LookedUp, s.w.clock, StaleMapping(s.w, op), {}, s.txs[u]);
    }
    HoldMoved(s, t, s'.txs[t], s');
  }

  lemma BeginKeepsInv(s: State, t: nat, s': State)
    requires Inv(s) && NextHold(s, Begin(t), s')
    ensures Inv(s')
  {
    assert TxOk(s, s.txs[t]);
    QuietMoved(s, t, s'.txs[t], s');
  }

  lemma TakeLockKeepsInv(s: State, t: nat, s': State)
    requires Inv(s) && NextHold(s, TakeLock(t), s')
    ensures Inv(s')
  {
    assert TxOk(s, s.txs[t]);
    QuietMoved(s, t, s'.txs[t], s');
  }

  lemma ClearKeyKeepsInv(s: State, t: nat, s': State)
    requires Inv(s) && NextHold(s, ClearKey(t), s')
    ensures Inv(s')
  {
    var x, x' := s.txs[t], s'.txs[t];
    assert TxOk(s, x);
    ClearKeyOk(s.w.db, x, s.nextId);
    forall u | u in s.txs && u != t ensures Apart(x', s.txs[u]) {
      ClearKeyApart(s, t, u);
    }
    HoldMoved(s, t, x', s');
  }

  lemma ClearKeyOk(db: Db, x: Tx, n: Id)
    requires x.op.Hold? && x.pc == Locked && HoldOk(db, x, n)
    ensures HoldOk(db, KeyCleared'(x, db.keys), n)
  {
  }

  lemma ClearKeyApart(s: State, t: nat, u: nat)
    requires Inv(s) && HoldAt(s, t, Locked) && u in s.txs && u != t
    requires KeyCleared'(s.txs[t], s.w.db.keys).dels !! s.txs[u].dels
    ensures Apart(KeyCleared'(s.txs[t], s.w.db.keys), s.txs[u])
  {
    var y := s.txs[u];
    assert Apart(s.txs[t], y) && TxOk(s, s.txs[t]) && TxOk(s, y);
    assert y.adds.Keys !! KeyCleared'(s.txs[t], s.w.db.keys).dels;
  }

  lemma SeenOthersOk(db: Db, x: Tx, pc: Pc, n: Id)
    requires x.op.Hold? && HoldOk(db, x, n)
    requires (x.pc == KeyCleared && pc == CancelStarted) || (x.pc == CancelDone && pc == ExpireStarted)
    ensures HoldOk(db, Seen(x, pc, db.bookings), n)
  {
    var x' := Seen(x, pc, db.bookings);
    assert HoldRows(db.bookings, x') by {
      forall i | i in x'.rows ensures HoldRow(db.bookings, x', i) {
        assert HoldRow(db.bookings, x, i);
      }
    }
  }

  lemma StartCancelKeepsInv(s: State, t: nat, s': State)
    requires Inv(s) && NextHold(s, StartCancel(t), s')
    ensures Inv(s')
  {
    assert TxOk(s, s.txs[t]);
    SeenOthersOk(s.w.db, s.txs[t], CancelStarted, s.nextId);
    assert forall u :: u in s.txs && u != t ==> Apart(s.txs[t], s.txs[u]);
    QuietMoved(s, t, s'.txs[t], s');
  }

  lemma RunCancelOk(db: Db, x: Tx, n: Id)
    requires x.op.Hold? && x.pc == CancelStarted && HoldOk(db, x, n)
    ensures HoldOk(db, x.(pc := CancelDone, rows := Victims(db.bookings, x)), n)
  {
  }

  lemma RunCancelKeepsInv(s: State, t: nat, s': State)
    requires Inv(s) && NextHold(s, RunCancel(t), s')
    ensures Inv(s')
  {
    var x, x' := s.txs[t], s'.txs[t];
    assert TxOk(s, x);
    RunCancelOk(s.w.db, x, s.nextId);
    forall u | u in s.txs && u != t ensures Apart(x', s.txs[u]) {
      assert Apart(x, s.txs[u]);
      assert forall i :: i in x'.rows ==> RowFree(s, t, i);
    }
    HoldMoved(s, t, x', s');
  }

  lemma StartExpireKeepsInv(s: State, t: nat, s': State)
    requires Inv(s) && NextHold(s, StartExpire(t), s')
    ensures Inv(s')
  {
    assert TxOk(s, s.txs[t]);
    SeenOthersOk(s.w.db, s.txs[t], ExpireStarted, s.nextId);
    assert forall u :: u in s.txs && u != t ==> Apart(s.txs[t], s.txs[u]);
    QuietMoved(s, t, s'.txs[t], s');
  }

  lemma ExpiryTakesTheSeen(bs: map<Id, Booking>, x: Tx)
    requires x.op.Hold? && x.pc == ExpireStarted && StalesOk(bs, x)
    ensures StalesOk(bs, x.(pc := ExpireDone, rows := x.rows + Stales(bs, x)))
  {
    var rows := x.rows + Stales(bs, x);
    forall i | i in bs && StaleHold(bs[i], x.op.m, x.op.s, x.ts) ensures i in x.seen <==> i in rows {
    }
  }

  lemma RunExpireOk(db: Db, x: Tx, n: Id)
    requires x.op.Hold? && x.pc == ExpireStarted && HoldOk(db, x, n)
    ensures HoldOk(db, x.(pc := ExpireDone, rows := x.rows + Stales(db.bookings, x)), n)
  {
    var x' := x.(pc := ExpireDone, rows := x.rows + Stales(db.bookings, x));
    assert HoldRows(db.bookings, x') by {
      forall i | i in x'.rows ensures HoldRow(db.bookings, x', i) {
        if i !in Stales(db.bookings, x) {
          assert HoldRow(db.bookings, x, i);
        }
      }
    }
    assert StalesOk(db.bookings, x') by {
      ExpiryTakesTheSeen(db.bookings, x);
    }
  }

  lemma RunExpireKeepsInv(s: State, t: nat, s': State)
    requires Inv(s) && NextHold(s, RunExpire(t), s')
    ensures Inv(s')
  {
    var x, x' := s.txs[t], s'.txs[t];
    assert TxOk(s, x);
    RunExpireOk(s.w.db, x, s.nextId);
    forall u | u in s.txs && u != t ensures Apart(x', s.txs[u]) {
      assert Apart(x, s.txs[u]);
      assert forall i :: i in Stales(s.w.db.bookings, x) ==> RowFree(s, t, i);
    }
    HoldMoved(s, t, x', s');
  }

  lemma InsertRowApart(s: State, t: nat, u: nat)
    requires Inv(s) && HoldAt(s, t, ExpireDone) && u in s.txs && u != t
    requires IndexesQuiet(s, t, s.txs[t].op.m, s.txs[t].op.s, s.txs[t].op.b)
    ensures Apart(WithRow(s.txs[t], s.nextId), s.txs[u])
  {
    var y := s.txs[u];
    assert Apart(s.txs[t], y) && TxOk(s, y);
    if HasRow(y) {
      assert y.id in y.rows;
      assert !ActiveAt(y.rows[y.id], s.txs[t].op.m, s.txs[t].op.s);
    }
    assert forall i :: i in y.rows ==> i < s.nextId;
  }

  lemma InsertRowOk(db: Db, x: Tx, n: Id)
    requires x.op.Hold? && x.pc == ExpireDone && HoldOk(db, x, n) && KeysUnoccupied(db.bookings, x)
    requires n !in db.bookings && (x.op.m, x.op.s) in db.seats && x.op.m in db.matches
    ensures HoldOk(db, WithRow(x, n), n + 1)
  {
    var x' := WithRow(x, n);
    assert HoldRows(db.bookings, x') by {
      forall i | i in x'.rows && i != n ensures HoldRow(db.bookings, x', i) {
        assert HoldRow(db.bookings, x, i);
      }
    }
  }

  lemma InsertRowKeepsInv(s: State, t: nat, s': State)
    requires Inv(s) && NextHold(s, InsertRow(t), s')
    ensures Inv(s')
  {
    var x, x' := s.txs[t], s'.txs[t];
    assert TxOk(s, x);
    assert s.nextId !in s.w.db.bookings;
    InsertRowOk(s.w.db, x, s.nextId);
    forall u | u in s.txs && u != t ensures Apart(x', s.txs[u]) {
      InsertRowApart(s, t, u);
    }
    HoldMoved(s, t, x', s');
  }

  lemma FailKeepsInv(s: State, t: nat, s': State)
    requires Inv(s) && t in s.txs && s.txs[t].op.Hold?
    requires s'.w == s.w && s'.txs == s.txs[t := Failed'(s.txs[t])]
    requires s.nextId <= s'.nextId && s.nextRefund == s'.nextRefund && s.nextEvent == s'.nextEvent
    ensures Inv(s')
  {
    assert TxOk(s, s.txs[t]);
    forall u | u in s.txs && u != t ensures Apart(s'.txs[t], s.txs[u]) {
      assert Apart(s.txs[t], s.txs[u]);
    }
    HoldMoved(s, t, s'.txs[t], s');
  }

  lemma InsertKeyOk(db: Db, x: Tx, n: Id)
    requires x.op.Hold? && x.pc == Inserted && HoldOk(db, x, n)
    requires x.op.key in db.keys ==> x.op.key in x.dels
    ensures HoldOk(db, WithKey(x), n)
  {
    var x' := WithKey(x);
    assert HoldRows(db.bookings, x') by {
      forall i | i in x'.rows && i != x'.id ensures HoldRow(db.bookings, x', i) {
        assert HoldRow(db.bookings, x, i);
      }
    }
  }

  lemma InsertKeyKeepsInv(s: State, t: nat, s': State)
    requires Inv(s) && NextHold(s, InsertKey(t), s')
    ensures Inv(s')
  {
    var x, x' := s.txs[t], s'.txs[t];
    assert TxOk(s, x);
    InsertKeyOk(s.w.db, x, s.nextId);
    forall u | u in s.txs && u != t ensures Apart(x', s.txs[u]) {
      assert Apart(x, s.txs[u]);
    }
    HoldMoved(s, t, x', s');
  }

  // ---------------------------------------------------------------- private moves of the other transactions

  lemma StartKeepsInv(s: State, t: nat, op: Op, s': State)
    requires Inv(s) && NextOther(s, StartStatement(t, op), s')
    ensures Inv(s')
  {
    var x := s'.txs[t];
    assert TxOk(s', x);
    forall u | u in s.txs ensures Apart(x, s.txs[u]) {
      NewTxIsApart(op, Begun, s.w.clock, None, {}, s.txs[u]);
    }
    PrivateKeepsInv(s, t, x, s');
  }

  lemma SnapshotKeepsInv(s: State, t: nat, s': State)
    requires Inv(s) && NextOther(s, TakeSnapshot(t), s')
    ensures Inv(s')
  {
    var x' := s'.txs[t];
    assert TxOk(s', x') by {
      assert TxOk(s, s.txs[t]);
    }
    forall u | u in s.txs && u != t ensures Apart(x', s.txs[u]) {
      assert Apart(s.txs[t], s.txs[u]);
    }
    PrivateKeepsInv(s, t, x', s');
  }

  /** A one-row statement that has found its row unlocked. */
  lemma PointIsApart(x: Tx, y: Tx, i: Id)
    requires !x.op.Hold? && !HasRefund(x) && x.rows.Keys == {i} && x.dels == {} && x.adds == map[] && i !in y.rows
    ensures Apart(x, y)
  {
    assert WritesApart(x, y);
  }

  lemma PointKeepsInv(s: State, t: nat, x: Tx, s': State, i: Id)
    requires Inv(s) && t in s.txs && Local(s, t, x, s') && RowFree(s, t, i)
    requires !x.op.Hold? && !HasRefund(x)
    requires x.rows.Keys == {i} && x.dels == {} && x.adds == map[]
    requires TxOk(s, x)
    ensures Inv(s')
  {
    forall u | u in s.txs && u != t ensures Apart(x, s.txs[u]) {
      PointIsApart(x, s.txs[u], i);
    }
    assert TxOk(s', x);
    PrivateKeepsInv(s, t, x, s');
  }

  lemma RunConfirmKeepsInv(s: State, t: nat, s': State)
    requires Inv(s) && NextOther(s, RunConfirm(t), s')
    ensures Inv(s')
  {
    assert TxOk(s, s.txs[t]);
    PointKeepsInv(s, t, s'.txs[t], s', s.txs[t].op.id);
  }

  lemma RunReleaseKeepsInv(s: State, t: nat, s': State)
    requires Inv(s) && NextOther(s, RunRelease(t), s')
    ensures Inv(s')
  {
    assert TxOk(s, s.txs[t]);
    PointKeepsInv(s, t, s'.txs[t], s', s.txs[t].op.id);
  }

  lemma RunCasKeepsInv(s: State, t: nat, s': State)
    requires Inv(s) && NextOther(s, RunCas(t), s')
    ensures Inv(s')
  {
    assert TxOk(s, s.txs[t]);
    PointKeepsInv(s, t, s'.txs[t], s', s.txs[t].op.id);
  }

  lemma InsertRefundKeepsInv(s: State, t: nat, s': State)
    requires Inv(s) && NextOther(s, InsertRefund(t), s')
    ensures Inv(s')
  {
    assert TxOk(s, s.txs[t]);
    forall u | u in s.txs && u != t ensures Apart(s'.txs[t], s.txs[u]) {
      assert Apart(s.txs[t], s.txs[u]) && TxOk(s, s.txs[u]);
    }
    PrivateKeepsInv(s, t, s'.txs[t], s');
  }

  lemma InsertEventKeepsInv(s: State, t: nat, s': State)
    requires Inv(s) && NextOther(s, InsertEvent(t), s')
    ensures Inv(s')
  {
    assert TxOk(s, s.txs[t]);
    forall u | u in s.txs && u != t ensures Apart(s'.txs[t], s.txs[u]) {
      assert Apart(s.txs[t], s.txs[u]) && TxOk(s, s.txs[u]);
    }
    PrivateKeepsInv(s, t, s'.txs[t], s');
  }

  lemma RunSweepKeepsInv(s: State, t: nat, ids: set<Id>, s': State)
    requires Inv(s) && NextOther(s, RunSweep(t, ids), s')
    ensures Inv(s')
  {
    assert TxOk(s, s.txs[t]);
    forall u | u in s.txs && u != t ensures Apart(s'.txs[t], s.txs[u]) {
      assert Apart(s.txs[t], s.txs[u]);
      assert forall i :: i in s'.txs[t].rows ==> RowFree(s, t, i);
    }
    PrivateKeepsInv(s, t, s'.txs[t], s');
  }

  lemma RunPruneKeepsInv(s: State, t: nat, ks: set<string>, s': State)
    requires Inv(s) && NextOther(s, RunPrune(t, ks), s')
    ensures Inv(s')
  {
    assert TxOk(s, s.txs[t]);
    forall u | u in s.txs && u != t ensures Apart(s'.txs[t], s.txs[u]) {
      assert Apart(s.txs[t], s.txs[u]);
      assert forall k :: k in ks ==> KeyFree(s, t, k);
    }
    PrivateKeepsInv(s, t, s'.txs[t], s');
  }

  // ---------------------------------------------------------------- commits are atomic steps

  /** At its commit, what a hold transaction wrote is what its UPDATEs and INSERT would write now. */
  lemma HoldWritesAre(bs: map<Id, Booking>, x: Tx, n: Id, db: Db)
    requires x.op.Hold? && x.pc == Ready && db.bookings == bs
    requires HoldRows(bs, x) && OthersOk(bs, x) && NewRowOk(db, x, n)
    ensures bs + x.rows == Cleared(bs, x.op.m, x.op.s, x.op.b, x.ts)[x.id := HeldRow(x.op.m, x.op.s, x.op.b, x.ts, x.op.ttl)]
  {
    var cs := Cleared(bs, x.op.m, x.op.s, x.op.b, x.ts);
    assert (bs + x.rows).Keys == cs.Keys + {x.id};
    forall i | i in bs ensures (bs + x.rows)[i] == cs[i] {
      if i in x.rows {
        assert HoldRow(bs, x, i);
      } else {
        assert !ActiveAt(bs[i], x.op.m, x.op.s);
        assert !OtherHold(bs[i], x.op.m, x.op.s, x.op.b);
      }
    }
  }

  /** ... and both index keys of the new row are free in the table it is inserted into. */
  lemma HoldKeysFree(bs: map<Id, Booking>, x: Tx, n: Id, db: Db)
    requires x.op.Hold? && x.pc == Ready && db.bookings == bs
    requires HoldRows(bs, x) && OthersOk(bs, x) && NewRowOk(db, x, n)
    ensures !SeatTaken(Cleared(bs, x.op.m, x.op.s, x.op.b, x.ts), x.op.m, x.op.s)
    ensures !BuyerHolds(Cleared(bs, x.op.m, x.op.s, x.op.b, x.ts), x.op.m, x.op.b)
  {
    var cs := Cleared(bs, x.op.m, x.op.s, x.op.b, x.ts);
    forall i | i in cs ensures !ActiveAt(cs[i], x.op.m, x.op.s) && !HeldBy(cs[i], x.op.m, x.op.b) {
      if i in x.rows {
        assert HoldRow(bs, x, i);
      } else {
        assert !ActiveAt(bs[i], x.op.m, x.op.s) && !HeldBy(bs[i], x.op.m, x.op.b);
      }
    }
  }

  lemma HoldKeyWritesAre(ks: map<string, Key>, x: Tx)
    requires x.op.Hold? && x.pc == Ready && KeysOk(ks, x)
    requires x.stale.Some? ==> x.op.key != ""
    ensures var rest := WithoutStale(ks, x.op.key, x.stale);
            && (x.op.key != "" ==> x.op.key !in rest)
            && (ks - x.dels) + x.adds == if x.op.key == "" then rest else rest[x.op.key := Key(x.id, x.ts)]
  {
    var rest := WithoutStale(ks, x.op.key, x.stale);
    if x.op.key == "" {
      assert x.dels == {};
      assert ks - x.dels == ks;
    } else {
      assert x.op.key !in rest;
      assert rest == ks - {x.op.key};
    }
  }

  lemma HoldCommits(s: State, t: nat)
    requires Inv(s) && HoldAt(s, t, Ready)
    ensures A.HoldStep(s.w, CommitLabel(s.txs[t]), Applied(s.w, s.txs[t]))
  {
    var x := s.txs[t];
    assert TxOk(s, x);
    HoldWritesAre(s.w.db.bookings, x, s.nextId, s.w.db);
    HoldKeysFree(s.w.db.bookings, x, s.nextId, s.w.db);
    HoldKeyWritesAre(s.w.db.keys, x);
  }

  /** Adding a one-row write set is a map update, and a write set without keys leaves the keys alone. */
  lemma PointWrites(bs: map<Id, Booking>, ks: map<string, Key>, x: Tx, i: Id, r: Booking)
    requires x.rows == map[i := r] && x.dels == {} && x.adds == map[]
    ensures bs + x.rows == bs[i := r]
    ensures (ks - x.dels) + x.adds == ks
  {
    assert ks - x.dels == ks;
  }

  lemma ConfirmCommits(w: A.World, x: Tx)
    requires x.op.Confirm? && x.pc == Ready && x.ts <= w.clock
    requires PointOk(w.db, x)
    ensures A.ConfirmStep(w, CommitLabel(x), Applied(w, x))
  {
    PointWrites(w.db.bookings, w.db.keys, x, x.op.id, ConfirmedRow(w.db.bookings[x.op.id], x.ts));
  }

  lemma ReleaseCommits(w: A.World, x: Tx)
    requires x.op.Release? && x.pc == Ready && x.ts <= w.clock && PointOk(w.db, x)
    ensures A.ReleaseStep(w, CommitLabel(x), Applied(w, x))
  {
    PointWrites(w.db.bookings, w.db.keys, x, x.op.id, CancelledRow(w.db.bookings[x.op.id], x.ts));
  }

  lemma CancelCommits(w: A.World, x: Tx)
    requires x.op.Cancel? && x.pc == Ready && x.ts <= w.clock && PointOk(w.db, x)
    requires x.refundId !in w.db.refunds && x.eventId !in w.db.events
    ensures A.CancelStep(w, CommitLabel(x), Applied(w, x))
  {
    PointWrites(w.db.bookings, w.db.keys, x, x.op.id, CancelledRow(w.db.bookings[x.op.id], x.ts));
  }

  lemma SweepCommits(w: A.World, x: Tx)
    requires x.op.Sweep? && x.pc == Ready && x.ts <= w.clock && PointOk(w.db, x)
    ensures A.SweepStep(w, CommitLabel(x), Applied(w, x))
  {
    assert w.db.bookings + x.rows == Swept(w.db.bookings, x.rows.Keys, x.ts);
    assert w.db.keys - x.dels + x.adds == w.db.keys;
  }

  lemma PruneCommits(w: A.World, x: Tx)
    requires x.op.Prune? && x.pc == Ready && x.ts <= w.clock && PointOk(w.db, x)
    ensures A.PruneStep(w, CommitLabel(x), Applied(w, x))
  {
    assert w.db.bookings + x.rows == w.db.bookings;
    assert w.db.keys - x.dels + x.adds == w.db.keys - x.dels;
  }

  /** A commit, whatever was interleaved before it, is one atomic step on the committed state. */
  lemma CommitIsAtomic(s: State, t: nat)
    requires Inv(s) && At(s, t, Ready)
    ensures A.Step(s.w, CommitLabel(s.txs[t]), Applied(s.w, s.txs[t]))
  {
    assert TxOk(s, s.txs[t]);
    match s.txs[t].op
    case Hold(_, _, _, _, _) => HoldCommits(s, t);
    case Confirm(_, _) => ConfirmCommits(s.w, s.txs[t]);
    case Release(_, _) => ReleaseCommits(s.w, s.txs[t]);
    case Cancel(_, _) => CancelCommits(s.w, s.txs[t]);
    case Sweep => SweepCommits(s.w, s.txs[t]);
    case Prune(_) => PruneCommits(s.w, s.txs[t]);
  }

  // ---------------------------------------------------------------- commits leave other transactions' invariants

  lemma RowsStable(bs: map<Id, Booking>, x: Tx, y: Tx)
    requires RowsOk(bs, x) && WritesApart(x, y)
    ensures RowsOk(bs + y.rows, x)
  {
    forall i | i in x.rows
      ensures if i in bs + y.rows then A.Rewritten((bs + y.rows)[i], x.rows[i], x.ts) else HasRow(x) && i == x.id
    {
      assert i !in y.rows;
    }
  }

  lemma HoldRowsStable(bs: map<Id, Booking>, x: Tx, y: Tx)
    requires x.op.Hold? && HoldRows(bs, x) && WritesApart(x, y)
    ensures HoldRows(bs + y.rows, x)
  {
    forall i | i in x.rows ensures HoldRow(bs + y.rows, x, i) || (HasRow(x) && i == x.id) {
      assert i !in y.rows;
      assert HoldRow(bs, x, i) || (HasRow(x) && i == x.id);
    }
  }

  /** While `x` holds the buyer's lock, no commit creates another hold of that buyer in that match. */
  lemma OthersStable(bs: map<Id, Booking>, x: Tx, y: Tx, ids: set<Id>, n: Id, db: Db)
    requires x.op.Hold? && HasLock(x) && OthersIn(bs, x, ids)
    requires RowsOk(bs, y) && LocksApart(x, y) && db.bookings == bs && HoldOk(db, y, n)
    ensures OthersIn(bs + y.rows, x, ids)
  {
    var bs' := bs + y.rows;
    assert HasRow(y) ==> y.rows[y.id] == HeldRow(y.op.m, y.op.s, y.op.b, y.ts, y.op.ttl);
    forall i | i in bs' && OtherHold(bs'[i], x.op.m, x.op.s, x.op.b) ensures i in ids {
      if i in y.rows {
        if i in bs {
          assert A.Rewritten(bs[i], y.rows[i], y.ts);
          assert OtherHold(bs[i], x.op.m, x.op.s, x.op.b);
        }
      }
    }
  }

  /** While `x` has an uncommitted row, no commit occupies either of its index keys. */
  lemma UnoccupiedStable(bs: map<Id, Booking>, x: Tx, y: Tx, n: Id, db: Db)
    requires x.op.Hold? && HasRow(x) && KeysUnoccupied(bs, x)
    requires RowsOk(bs, y) && Apart(x, y) && db.bookings == bs && HoldOk(db, y, n)
    ensures KeysUnoccupied(bs + y.rows, x)
  {
    var bs' := bs + y.rows;
    forall i | i in bs' && i !in x.rows
      ensures !ActiveAt(bs'[i], x.op.m, x.op.s) && !HeldBy(bs'[i], x.op.m, x.op.b)
    {
      if i in y.rows {
        if i in bs {
          assert A.Rewritten(bs[i], y.rows[i], y.ts);
        } else {
          assert HasRow(y) && i == y.id;
          assert bs'[i] == HeldRow(y.op.m, y.op.s, y.op.b, y.ts, y.op.ttl);
        }
      }
    }
  }

  /** A key only ever moves to a booking that is new, so it does not come back to a stale one. */
  lemma KeysStable(db: Db, x: Tx, y: Tx, n: Id)
    requires x.op.Hold? && KeysOk(db.keys, x) && StaleOk(db.bookings, x) && WritesApart(x, y)
    requires HoldOk(db, y, n) && (!y.op.Hold? ==> y.adds == map[])
    ensures KeysOk((db.keys - y.dels) + y.adds, x)
  {
    if x.op.key in y.adds {
      assert y.adds[x.op.key].bookingId == y.id && y.id !in db.bookings;
    }
  }

  lemma StalesStable(w: A.World, x: Tx, y: Tx)
    requires x.op.Hold? && StalesOk(w.db.bookings, x) && RowsOk(w.db.bookings, y) && WritesApart(x, y)
    requires SeenOk(w, x) && w.births.Keys == w.db.bookings.Keys
    requires HasRow(y) ==> y.id !in x.rows
    ensures StalesOk(w.db.bookings + y.rows, x)
  {
    var bs, bs' := w.db.bookings, w.db.bookings + y.rows;
    if x.pc in {ExpireDone, Inserted, Ready} {
      forall i | i in bs' && StaleHold(bs'[i], x.op.m, x.op.s, x.ts) ensures i in x.seen <==> i in x.rows {
        if i in y.rows && i in bs {
          assert A.Rewritten(bs[i], y.rows[i], y.ts);
        }
      }
    }
  }

  lemma StaleStable(bs: map<Id, Booking>, x: Tx, y: Tx)
    requires x.op.Hold? && StaleOk(bs, x) && RowsOk(bs, y)
    ensures StaleOk(bs + y.rows, x)
  {
    if x.stale.Some? && x.stale.value in y.rows {
      assert A.Rewritten(bs[x.stale.value], y.rows[x.stale.value], y.ts);
    }
  }

  lemma OthersOkStable(bs: map<Id, Booking>, x: Tx, y: Tx, n: Id, db: Db)
    requires x.op.Hold? && OthersOk(bs, x)
    requires RowsOk(bs, y) && LocksApart(x, y) && db.bookings == bs && HoldOk(db, y, n)
    ensures OthersOk(bs + y.rows, x)
  {
    if x.pc == CancelStarted {
      OthersStable(bs, x, y, x.seen, n, db);
    } else if x.pc in {CancelDone, ExpireStarted, ExpireDone, Inserted, Ready} {
      OthersStable(bs, x, y, x.rows.Keys, n, db);
    }
  }

  lemma HoldStable(w: A.World, db': Db, x: Tx, y: Tx, n: Id)
    requires var db := w.db; HoldOk(db, x, n) && HoldOk(db, y, n) && RowsOk(db.bookings, y) && Apart(x, y)
    requires SeenOk(w, x) && w.births.Keys == w.db.bookings.Keys && (!y.op.Hold? ==> y.adds == map[])
    requires db'.bookings == w.db.bookings + y.rows && db'.keys == (w.db.keys - y.dels) + y.adds
    requires db'.seats == w.db.seats && db'.matches == w.db.matches
    ensures HoldOk(db', x, n)
  {
    var db := w.db;
    if x.op.Hold? {
      StalesStable(w, x, y);
      HoldRowsStable(db.bookings, x, y);
      OthersOkStable(db.bookings, x, y, n, db);
      if HasRow(x) {
        UnoccupiedStable(db.bookings, x, y, n, db);
      }
      KeysStable(db, x, y, n);
      StaleStable(db.bookings, x, y);
    }
  }

  lemma PointStable(db: Db, db': Db, x: Tx, y: Tx)
    requires PointOk(db, x) && WritesApart(x, y)
    requires db'.bookings == db.bookings + y.rows && db'.keys == (db.keys - y.dels) + y.adds
    requires db'.matches == db.matches
    ensures PointOk(db', x)
  {
    assert forall i :: i in x.rows ==> i !in y.rows;
    assert forall k :: k in x.dels ==> k !in y.dels && k !in y.adds;
  }

  lemma SeenStable(w: A.World, x: Tx, y: Tx)
    requires SeenOk(w, x) && x.ts <= w.clock
    requires y.op.Hold? ==> y.id !in w.births
    ensures SeenOk(Applied(w, y), x)
  {
  }

  lemma OtherTxStable(s: State, t: nat, u: nat, s': State)
    requires Inv(s) && NextOther(s, Commit(t), s') && u in s.txs && u != t
    ensures TxOk(s', s.txs[u])
  {
    var x, y := s.txs[u], s.txs[t];
    assert TxOk(s, x) && TxOk(s, y) && Apart(x, y);
    RowsStable(s.w.db.bookings, x, y);
    HoldStable(s.w, s'.w.db, x, y, s.nextId);
    PointStable(s.w.db, s'.w.db, x, y);
    SeenStable(s.w, x, y);
  }

  lemma CommitKeepsCounters(s: State, x: Tx, s': State)
    requires CountersOk(s) && RowsOk(s.w.db.bookings, x) && HoldOk(s.w.db, x, s.nextId) && IdsOk(s, x) && x.pc == Ready
    requires s' == s.(w := Applied(s.w, x), txs := s'.txs)
    ensures CountersOk(s')
  {
    forall i | i in s'.w.db.bookings ensures i < s'.nextId {
      assert i in s.w.db.bookings || i in x.rows;
    }
  }

  lemma CommitKeepsInv(s: State, t: nat, s': State)
    requires Inv(s) && NextOther(s, Commit(t), s')
    ensures Inv(s')
  {
    assert A.Inv(s'.w) by {
      CommitIsAtomic(s, t);
      A.StepKeepsInv(s.w, CommitLabel(s.txs[t]), s'.w);
    }
    assert CountersOk(s') by {
      assert TxOk(s, s.txs[t]);
      CommitKeepsCounters(s, s.txs[t], s');
    }
    forall u | u in s'.txs ensures TxOk(s', s'.txs[u]) {
      OtherTxStable(s, t, u, s');
    }
    forall u, v | u in s'.txs && v in s'.txs && u != v ensures Apart(s'.txs[u], s'.txs[v]) {
      assert Apart(s.txs[u], s.txs[v]);
    }
  }

  lemma TickKeepsInv(s: State, c: Time, s': State)
    requires Inv(s) && NextOther(s, Tick(c), s')
    ensures Inv(s')
  {
    A.TickKeepsInv(s.w, s'.w);
    forall u | u in s'.txs ensures TxOk(s', s'.txs[u]) {
      assert TxOk(s, s.txs[u]);
    }
    forall u, v | u in s'.txs && v in s'.txs && u != v ensures Apart(s'.txs[u], s'.txs[v]) {
      assert Apart(s.txs[u], s.txs[v]);
    }
  }

  lemma WorkerKeepsInv(s: State, rs: map<Id, Refund>, es: map<Id, Event>, s': State)
    requires Inv(s) && NextOther(s, WorkerWrites(rs, es), s')
    ensures Inv(s')
  {
    A.StepKeepsInv(s.w, A.WorkerWrote, s'.w);
    assert CountersOk(s') by {
      assert rs.Keys == s.w.db.refunds.Keys && es.Keys == s.w.db.events.Keys;
    }
    forall u | u in s'.txs ensures TxOk(s', s'.txs[u]) {
      assert TxOk(s, s.txs[u]);
    }
    forall u, v | u in s'.txs && v in s'.txs && u != v ensures Apart(s'.txs[u], s'.txs[v]) {
      assert Apart(s.txs[u], s.txs[v]);
    }
  }

  lemma SkipKeepsInv(s: State, mv: Move, s': State)
    requires Inv(s) && mv.SkipIds? && NextOther(s, mv, s')
    ensures Inv(s')
  {
    forall u | u in s'.txs ensures TxOk(s', s'.txs[u]) {
      assert TxOk(s, s.txs[u]);
    }
    forall u, v | u in s'.txs && v in s'.txs && u != v ensures Apart(s'.txs[u], s'.txs[v]) {
      assert Apart(s.txs[u], s.txs[v]);
    }
  }

  /** The statements of the hold path before its INSERT. */
  predicate Prepares(mv: Move) {
    mv.Begin? || mv.TakeLock? || mv.ClearKey? || mv.StartCancel? || mv.RunCancel? || mv.StartExpire? || mv.RunExpire?
  }

  lemma PreparingKeepsInv(s: State, mv: Move, s': State)
    requires Inv(s) && NextHold(s, mv, s') && Prepares(mv)
    ensures Inv(s')
  {
    match mv
    case Begin(t) => BeginKeepsInv(s, t, s');
    case TakeLock(t) => TakeLockKeepsInv(s, t, s');
    case ClearKey(t) => ClearKeyKeepsInv(s, t, s');
    case StartCancel(t) => StartCancelKeepsInv(s, t, s');
    case RunCancel(t) => RunCancelKeepsInv(s, t, s');
    case StartExpire(t) => StartExpireKeepsInv(s, t, s');
    case RunExpire(t) => RunExpireKeepsInv(s, t, s');
  }

  lemma HoldMoveKeepsInv(s: State, mv: Move, s': State)
    requires Inv(s) && NextHold(s, mv, s') && !Prepares(mv)
    ensures Inv(s')
  {
    match mv
    case LookupProceeds(t, op, at) => LookupKeepsInv(s, t, op, at, s');
    case LookupReplays(_, _, _) =>
    case LookupMismatches(_) =>
    case InsertRow(t) => InsertRowKeepsInv(s, t, s');
    case RejectRow(t) => FailKeepsInv(s, t, s');
    case InsertKey(t) => InsertKeyKeepsInv(s, t, s');
    case RejectKey(t) => FailKeepsInv(s, t, s');
    case RecoveryReplays(t, _, _) => GoneKeepsInv(s, t, s');
    case RecoveryMismatches(t) => GoneKeepsInv(s, t, s');
    case RecoveryRefuses(t, _) => GoneKeepsInv(s, t, s');
  }

  lemma OtherMoveKeepsInv(s: State, mv: Move, s': State)
    requires Inv(s) && NextOther(s, mv, s')
    ensures Inv(s')
  {
    match mv
    case Tick(c) => TickKeepsInv(s, c, s');
    case StartStatement(t, op) => StartKeepsInv(s, t, op, s');
    case TakeSnapshot(t) => SnapshotKeepsInv(s, t, s');
    case RunConfirm(t) => RunConfirmKeepsInv(s, t, s');
    case RunRelease(t) => RunReleaseKeepsInv(s, t, s');
    case RunCas(t) => RunCasKeepsInv(s, t, s');
    case FindNothing(t) => GoneKeepsInv(s, t, s');
    case InsertRefund(t) => InsertRefundKeepsInv(s, t, s');
    case InsertEvent(t) => InsertEventKeepsInv(s, t, s');
    case RunSweep(t, ids) => RunSweepKeepsInv(s, t, ids, s');
    case RunPrune(t, ks) => RunPruneKeepsInv(s, t, ks, s');
    case Commit(t) => CommitKeepsInv(s, t, s');
    case Abort(t) => GoneKeepsInv(s, t, s');
    case WorkerWrites(rs, es) => WorkerKeepsInv(s, rs, es, s');
    case SkipIds(_, _, _) => SkipKeepsInv(s, mv, s');
    case ReadSeats(_, _) =>
    case ReadHistory(_, _) =>
  }

  lemma MoveKeepsInv(s: State, mv: Move, s': State)
    requires Inv(s) && Next(s, mv, s')
    ensures Inv(s')
  {
    if NextHold(s, mv, s') {
      if Prepares(mv) {
        PreparingKeepsInv(s, mv, s');
      } else {
        HoldMoveKeepsInv(s, mv, s');
      }
    } else {
      OtherMoveKeepsInv(s, mv, s');
    }
  }

  // ---------------------------------------------------------------- every move is an atomic step

  /** The buyer index never rejects an insert that the seat index would accept. */
  lemma SeatIndexDecides(s: State, t: nat, i: Id)
    requires Inv(s) && HoldAt(s, t, ExpireDone)
    requires i in s.w.db.bookings && i !in s.txs[t].rows
    requires HeldBy(s.w.db.bookings[i], s.txs[t].op.m, s.txs[t].op.b)
    ensures ActiveAt(s.w.db.bookings[i], s.txs[t].op.m, s.txs[t].op.s)
  {
    assert TxOk(s, s.txs[t]);
    assert !OtherHold(s.w.db.bookings[i], s.txs[t].op.m, s.txs[t].op.s, s.txs[t].op.b);
  }

  /** The seat was not to be had for transaction `x`: an active row on it that its lazy expiry would not
      take, because the hold is not past its TTL or is not in the snapshot. */
  ghost predicate OccupiedFor(bs: map<Id, Booking>, x: Tx)
    requires x.op.Hold?
  {
    exists i :: i in bs && ActiveAt(bs[i], x.op.m, x.op.s) && !(i in x.seen && StaleHold(bs[i], x.op.m, x.op.s, x.ts))
  }

  lemma RejectionIsAtomic(s: State, t: nat, s': State)
    requires Inv(s) && NextHold(s, RejectRow(t), s')
    ensures A.Step(s.w, RejectedRow(t, s.txs[t]), s'.w)
    ensures OccupiedFor(s.w.db.bookings, s.txs[t])
  {
    var x := s.txs[t];
    assert HoldOk(s.w.db, x, s.nextId) && SeenOk(s.w, x) by {
      assert TxOk(s, x);
    }
    var i :| i in s.w.db.bookings && i !in x.rows
             && (ActiveAt(s.w.db.bookings[i], x.op.m, x.op.s) || HeldBy(s.w.db.bookings[i], x.op.m, x.op.b));
    if !ActiveAt(s.w.db.bookings[i], x.op.m, x.op.s) {
      SeatIndexDecides(s, t, i);
    }
    assert ActiveAt(s.w.db.bookings[i], x.op.m, x.op.s);
    assert StaleHold(s.w.db.bookings[i], x.op.m, x.op.s, x.ts) ==> i !in x.seen;
    assert !StaleHold(s.w.db.bookings[i], x.op.m, x.op.s, x.ts) || A.BornSince(s.w, i, x.ts);
    assert A.SeatOccupied(s.w, x.op.m, x.op.s, x.ts);
  }

  /** A key conflict comes after the row was inserted: the seat is free, and the key was moved by
      someone else since the request looked it up. */
  lemma KeyRejectionIsAtomic(s: State, t: nat, s': State)
    requires Inv(s) && NextHold(s, RejectKey(t), s')
    ensures A.Step(s.w, RejectedKey(t, s.txs[t]), s'.w)
    ensures !OccupiedFor(s.w.db.bookings, s.txs[t]) && A.KeyMoved(s.w, s.txs[t].op.key, s.txs[t].stale)
  {
    assert TxOk(s, s.txs[t]);
    InsertedSeatIsFree(s.w, s.txs[t], s.nextId);
  }

  /** Once nobody else has the key's row in hand, the key insert is rejected iff the key names another
      booking than the one (or none) that the request found under it. */
  lemma KeyRejectedIff(s: State, t: nat)
    requires Inv(s) && HoldAt(s, t, Inserted) && KeyFree(s, t, s.txs[t].op.key)
    ensures (exists s' :: Next(s, RejectKey(t), s')) <==> A.KeyMoved(s.w, s.txs[t].op.key, s.txs[t].stale)
    ensures (exists s' :: Next(s, InsertKey(t), s')) <==> !A.KeyMoved(s.w, s.txs[t].op.key, s.txs[t].stale)
  {
    var x := s.txs[t];
    assert x.op.key != "" && (A.KeyMoved(s.w, x.op.key, x.stale) <==> x.op.key in s.w.db.keys && x.op.key !in x.dels) by {
      assert TxOk(s, x);
      assert KeysOk(s.w.db.keys, x);
    }
    KeyJudged(s, t);
  }

  lemma KeyJudged(s: State, t: nat)
    requires HoldAt(s, t, Inserted) && KeyFree(s, t, s.txs[t].op.key)
    ensures (exists s' :: Next(s, RejectKey(t), s')) <==> s.txs[t].op.key in s.w.db.keys && s.txs[t].op.key !in s.txs[t].dels
    ensures (exists s' :: Next(s, InsertKey(t), s')) <==> !(s.txs[t].op.key in s.w.db.keys && s.txs[t].op.key !in s.txs[t].dels)
  {
    var x := s.txs[t];
    if x.op.key in s.w.db.keys && x.op.key !in x.dels {
      assert Next(s, RejectKey(t), s.(txs := s.txs[t := Failed'(x)]));
    } else {
      assert Next(s, InsertKey(t), s.(txs := s.txs[t := WithKey(x)]));
    }
  }

  lemma InsertedSeatIsFree(w: A.World, x: Tx, n: Id)
    requires x.op.Hold? && x.pc == Inserted && HoldOk(w.db, x, n)
    ensures A.SeatFree(w, x.op.m, x.op.s, x.ts) && !OccupiedFor(w.db.bookings, x)
  {
    forall i | i in w.db.bookings && ActiveAt(w.db.bookings[i], x.op.m, x.op.s)
      ensures i in x.seen && StaleHold(w.db.bookings[i], x.op.m, x.op.s, x.ts)
    {
      assert i in x.rows;
      assert HoldRow(w.db.bookings, x, i);
    }
  }

  lemma RefusalIsAtomic(s: State, t: nat, s': State)
    requires Inv(s) && NextOther(s, FindNothing(t), s')
    ensures A.Step(s.w, RefusalLabel(s.txs[t]), s'.w)
  {
    assert TxOk(s, s.txs[t]);
    assert s.w.births.Keys == s.w.db.bookings.Keys;
  }

  /** Before its commit, the hold path writes nothing that another transaction can read. */
  lemma HoldMovesArePrivate(s: State, mv: Move, s': State)
    requires NextHold(s, mv, s')
    ensures s'.w == s.w
  {
  }

  lemma HoldAnswersAreAtomic(s: State, mv: Move, s': State)
    requires NextHold(s, mv, s') && !mv.RejectRow? && !mv.RejectKey?
    ensures A.Step(s.w, LabelOf(s, mv, s'), s'.w)
  {
    HoldMovesArePrivate(s, mv, s');
  }

  lemma OtherMovesAreAtomic(s: State, mv: Move, s': State)
    requires NextOther(s, mv, s') && !mv.FindNothing? && !mv.Commit?
    ensures A.Step(s.w, LabelOf(s, mv, s'), s'.w)
  {
  }

  lemma RejectionRefines(s: State, mv: Move, s': State)
    requires Inv(s) && Next(s, mv, s') && (mv.RejectRow? || mv.RejectKey?)
    ensures A.Step(s.w, LabelOf(s, mv, s'), s'.w)
  {
    if mv.RejectRow? {
      RejectionIsAtomic(s, mv.t, s');
    } else {
      KeyRejectionIsAtomic(s, mv.t, s');
    }
  }

  lemma QuietMoveRefines(s: State, mv: Move, s': State)
    requires Next(s, mv, s') && !mv.RejectRow? && !mv.RejectKey? && !mv.FindNothing? && !mv.Commit?
    ensures A.Step(s.w, LabelOf(s, mv, s'), s'.w)
  {
    if NextHold(s, mv, s') {
      HoldAnswersAreAtomic(s, mv, s');
    } else {
      OtherMovesAreAtomic(s, mv, s');
    }
  }

  /** Every move of every interleaving is, on the committed state, the atomic step its label names. */
  lemma MoveRefines(s: State, mv: Move, s': State)
    requires Inv(s) && Next(s, mv, s')
    ensures A.Step(s.w, LabelOf(s, mv, s'), s'.w)
  {
    if mv.RejectRow? || mv.RejectKey? {
      RejectionRefines(s, mv, s');
    } else if mv.FindNothing? {
      RefusalIsAtomic(s, mv.t, s');
    } else if mv.Commit? {
      CommitIsAtomic(s, mv.t);
    } else {
      QuietMoveRefines(s, mv, s');
    }
  }
}
