/**
 A call that nobody interferes with is a path of the interleaved machine, and ends with the tables
 and the answer that the sequential specification of module StoreModel gives. Other transactions may
 be open as long as they have written and locked nothing.
 */
module LoneCalls {
  import opened Options
  import opened Tables
  import opened Interleaving
  import opened Paths
  import opened StoreModel
  import A = Atomic
  import R = Refinement

  predicate Idle(x: Tx) {
    x.rows == map[] && x.dels == {} && x.adds == map[] && !HasLock(x)
  }

  /** No transaction but `t` has written or locked anything. */
  ghost predicate QuietBut(s: State, t: nat) {
    forall u :: u in s.txs && u != t ==> Idle(s.txs[u])
  }

  function ShopOf(s: State): Shop {
    Shop(s.w.db, s.nextId, s.nextRefund, s.nextEvent)
  }

  lemma {:induction false} PathKeepsInv(ss: seq<State>, mvs: seq<Move>, k: nat)
    requires IsPath(Next, ss, mvs) && k < |ss| && Inv(ss[0])
    ensures Inv(ss[k])
  {
    if k > 0 {
      PathKeepsInv(ss, mvs, k - 1);
      StepAt(Next, ss, mvs, k - 1);
      R.MoveKeepsInv(ss[k - 1], mvs[k - 1], ss[k]);
    }
  }

  // ---------------------------------------------------------------- the hold path up to its INSERT

  function Opened(s: State, x: Tx): Tx
    requires x.op.Hold?
  {
    KeyCleared'(x.(pc := Locked, ts := s.w.clock), s.w.db.keys)
  }

  function Prepared(s: State, x: Tx): Tx
    requires x.op.Hold?
  {
    var y := Seen(Opened(s, x), ExpireStarted, s.w.db.bookings);
    y.(pc := ExpireDone, rows := Victims(s.w.db.bookings, y) + Stales(s.w.db.bookings, y))
  }

  lemma Opens(s: State, t: nat) returns (ss: seq<State>, mvs: seq<Move>)
    requires HoldAt(s, t, LookedUp) && Idle(s.txs[t]) && QuietBut(s, t)
    ensures IsPath(Next, ss, mvs) && ss[0] == s
    ensures ss[|mvs|] == s.(txs := s.txs[t := Opened(s, s.txs[t])])
  {
    var x1 := s.txs[t].(pc := Begun, ts := s.w.clock);
    var s1 := s.(txs := s.txs[t := x1]);
    var s2 := s1.(txs := s1.txs[t := x1.(pc := Locked)]);
    var s3 := s2.(txs := s2.txs[t := Opened(s, s.txs[t])]);
    BeginEnabled(s, t, s1);
    LockEnabled(s1, t, s2);
    ClearEnabled(s2, t, s3);
    ThreeSteps(Next, s, Begin(t), s1, TakeLock(t), s2, ClearKey(t), s3);
    ss, mvs := [s, s1, s2, s3], [Begin(t), TakeLock(t), ClearKey(t)];
  }

  lemma BeginEnabled(s: State, t: nat, s': State)
    requires HoldAt(s, t, LookedUp) && s' == s.(txs := s.txs[t := s.txs[t].(pc := Begun, ts := s.w.clock)])
    ensures IsPath(Next, [s, s'], [Begin(t)])
  {
    assert NextHold(s, Begin(t), s');
  }

  lemma LockEnabled(s: State, t: nat, s': State)
    requires HoldAt(s, t, Begun) && QuietBut(s, t) && s' == s.(txs := s.txs[t := s.txs[t].(pc := Locked)])
    ensures IsPath(Next, [s, s'], [TakeLock(t)])
  {
    assert NextHold(s, TakeLock(t), s');
  }

  lemma ClearEnabled(s: State, t: nat, s': State)
    requires HoldAt(s, t, Locked) && QuietBut(s, t) && s' == s.(txs := s.txs[t := KeyCleared'(s.txs[t], s.w.db.keys)])
    ensures IsPath(Next, [s, s'], [ClearKey(t)])
  {
    assert NextHold(s, ClearKey(t), s');
  }

  lemma Cancels(s: State, t: nat) returns (ss: seq<State>, mvs: seq<Move>)
    requires HoldAt(s, t, KeyCleared) && QuietBut(s, t)
    ensures IsPath(Next, ss, mvs) && ss[0] == s
    ensures var y := Seen(s.txs[t], CancelDone, s.w.db.bookings);
            ss[|mvs|] == s.(txs := s.txs[t := y.(rows := Victims(s.w.db.bookings, y))])
  {
    var bs := s.w.db.bookings;
    var x1 := Seen(s.txs[t], CancelStarted, bs);
    var s1 := s.(txs := s.txs[t := x1]);
    var s2 := s1.(txs := s1.txs[t := x1.(pc := CancelDone, rows := Victims(bs, x1))]);
    assert NextHold(s, StartCancel(t), s1);
    assert NextHold(s1, RunCancel(t), s2);
    assert Victims(bs, x1) == Victims(bs, Seen(s.txs[t], CancelDone, bs));
    ss, mvs := [s, s1, s2], [StartCancel(t), RunCancel(t)];
  }

  lemma ExpiryEnabled(s: State, t: nat, s': State)
    requires HoldAt(s, t, ExpireStarted) && QuietBut(s, t)
    requires var x := s.txs[t]; s' == s.(txs := s.txs[t := x.(pc := ExpireDone, rows := x.rows + Stales(s.w.db.bookings, x))])
    ensures NextHold(s, RunExpire(t), s')
  {
  }

  lemma Expires(s: State, t: nat) returns (ss: seq<State>, mvs: seq<Move>)
    requires HoldAt(s, t, CancelDone) && QuietBut(s, t)
    ensures IsPath(Next, ss, mvs) && ss[0] == s
    ensures var y := Seen(s.txs[t], ExpireDone, s.w.db.bookings);
            ss[|mvs|] == s.(txs := s.txs[t := y.(rows := y.rows + Stales(s.w.db.bookings, y))])
  {
    var bs := s.w.db.bookings;
    var x1 := Seen(s.txs[t], ExpireStarted, bs);
    var s1 := s.(txs := s.txs[t := x1]);
    var s2 := s1.(txs := s1.txs[t := x1.(pc := ExpireDone, rows := x1.rows + Stales(bs, x1))]);
    assert NextHold(s, StartExpire(t), s1);
    ExpiryEnabled(s1, t, s2);
    assert Stales(bs, x1) == Stales(bs, Seen(s.txs[t], ExpireDone, bs));
    ss, mvs := [s, s1, s2], [StartExpire(t), RunExpire(t)];
  }

  /** From the lookup to the INSERT: lock, guarded delete, both updates. */
  lemma Prepares(s: State, t: nat) returns (ss: seq<State>, mvs: seq<Move>)
    requires HoldAt(s, t, LookedUp) && Idle(s.txs[t]) && QuietBut(s, t)
    ensures IsPath(Next, ss, mvs) && ss[0] == s
    ensures ss[|mvs|] == s.(txs := s.txs[t := Prepared(s, s.txs[t])])
  {
    ss, mvs := Opens(s, t);
    var ts, nvs := Cancels(ss[|mvs|], t);
    Chain(Next, ss, mvs, ts, nvs);
    ss, mvs := ss + ts[1..], mvs + nvs;
    ts, nvs := Expires(ss[|mvs|], t);
    Chain(Next, ss, mvs, ts, nvs);
    ss, mvs := ss + ts[1..], mvs + nvs;
    PreparedIs(s, s.txs[t]);
  }

  lemma PreparedIs(s: State, x: Tx)
    requires x.op.Hold?
    ensures var bs := s.w.db.bookings;
            var y := Seen(Opened(s, x), CancelDone, bs);
            var z := Seen(y.(rows := Victims(bs, y)), ExpireDone, bs);
            z.(rows := z.rows + Stales(bs, z)) == Prepared(s, x)
  {
    var bs := s.w.db.bookings;
    var y := Seen(Opened(s, x), CancelDone, bs);
    var y' := Seen(Opened(s, x), ExpireStarted, bs);
    var z := Seen(y.(rows := Victims(bs, y)), ExpireDone, bs);
    assert Victims(bs, y) == Victims(bs, y');
    assert Stales(bs, z) == Stales(bs, y');
  }

  // ---------------------------------------------------------------- how a hold ends

  lemma FreeForInsert(s: State, x: Tx)
    requires x.op.Hold? && !Blocked(s.w.db.bookings, x.op.m, x.op.s, s.w.clock)
    ensures KeysUnoccupied(s.w.db.bookings, Prepared(s, x))
  {
    var bs, y := s.w.db.bookings, Prepared(s, x);
    forall i | i in bs && i !in y.rows ensures !ActiveAt(bs[i], x.op.m, x.op.s) && !HeldBy(bs[i], x.op.m, x.op.b) {
      assert !StaleHold(bs[i], x.op.m, x.op.s, s.w.clock) && !OtherHold(bs[i], x.op.m, x.op.s, x.op.b);
    }
  }

  lemma Inserts(s: State, t: nat) returns (ss: seq<State>, mvs: seq<Move>)
    requires HoldAt(s, t, LookedUp) && Idle(s.txs[t]) && QuietBut(s, t)
    requires !Blocked(s.w.db.bookings, s.txs[t].op.m, s.txs[t].op.s, s.w.clock)
    requires SeatExists(s.w.db, s.txs[t].op.m, s.txs[t].op.s)
    ensures IsPath(Next, ss, mvs) && ss[0] == s
    ensures ss[|mvs|] == s.(txs := s.txs[t := WithRow(Prepared(s, s.txs[t]), s.nextId)], nextId := s.nextId + 1)
  {
    ss, mvs := Prepares(s, t);
    var p, y := ss[|mvs|], Prepared(s, s.txs[t]);
    FreeForInsert(s, s.txs[t]);
    var s1 := p.(txs := p.txs[t := WithRow(y, p.nextId)], nextId := p.nextId + 1);
    InsertEnabled(p, t, s1);
    Extend(Next, ss, mvs, InsertRow(t), s1);
    ss, mvs := ss + [s1], mvs + [InsertRow(t)];
  }

  lemma InsertEnabled(p: State, t: nat, s1: State)
    requires HoldAt(p, t, ExpireDone) && QuietBut(p, t) && KeysUnoccupied(p.w.db.bookings, p.txs[t])
    requires SeatExists(p.w.db, p.txs[t].op.m, p.txs[t].op.s)
    requires s1 == p.(txs := p.txs[t := WithRow(p.txs[t], p.nextId)], nextId := p.nextId + 1)
    ensures IsPath(Next, [p, s1], [InsertRow(t)])
  {
  }

  function Committed(s: State, t: nat): State
    requires t in s.txs
  {
    s.(w := Applied(s.w, s.txs[t]), txs := s.txs - {t})
  }

  /** A transaction that is ready can always commit. */
  lemma Commits(ss: seq<State>, mvs: seq<Move>, t: nat) returns (ts: seq<State>, nvs: seq<Move>)
    requires IsPath(Next, ss, mvs) && At(ss[|mvs|], t, Ready)
    ensures IsPath(Next, ts, nvs) && ts[0] == ss[0] && |nvs| == |mvs| + 1 && nvs[|mvs|] == Commit(t)
    ensures ts[|mvs|] == ss[|mvs|] && ts[|nvs|] == Committed(ss[|mvs|], t)
  {
    var s' := Committed(ss[|mvs|], t);
    CommitEnabled(ss[|mvs|], t);
    Extend(Next, ss, mvs, Commit(t), s');
    ts, nvs := ss + [s'], mvs + [Commit(t)];
  }

  lemma KeyInsertEnabled(s: State, t: nat, s': State)
    requires HoldAt(s, t, Inserted) && QuietBut(s, t) && (s.txs[t].op.key in s.w.db.keys ==> s.txs[t].op.key in s.txs[t].dels)
    requires s' == s.(txs := s.txs[t := WithKey(s.txs[t])])
    ensures IsPath(Next, [s, s'], [InsertKey(t)])
  {
  }

  /** What a committed hold leaves is what the sequential specification grants. */
  lemma StepIsGrant(w: A.World, l: A.Label, w': A.World, st: Shop)
    requires l.HoldCommitted? && A.HoldStep(w, l, w') && w.db == st.db && l.id == st.nextId
    requires l.key == "" ==> l.stale.None?
    ensures w'.db == Granted(st, l.ts, l.m, l.s, l.b, l.ttl, l.key).db
  {
    if l.key != "" {
      assert WithoutStale(st.db.keys, l.key, l.stale)[l.key := Key(l.id, l.ts)] == st.db.keys[l.key := Key(l.id, l.ts)];
    }
  }

  lemma GrantedIs(s: State, t: nat, st: Shop)
    requires Inv(s) && HoldAt(s, t, Ready) && s.txs[t].id == st.nextId && s.w.db == st.db
    ensures var o := s.txs[t].op;
            Applied(s.w, s.txs[t]).db == Granted(st, s.txs[t].ts, o.m, o.s, o.b, o.ttl, o.key).db
  {
    assert StaleOk(s.w.db.bookings, s.txs[t]) by {
      assert TxOk(s, s.txs[t]);
    }
    R.HoldCommits(s, t);
    StepIsGrant(s.w, CommitLabel(s.txs[t]), Applied(s.w, s.txs[t]), st);
  }

  /** In `p` the hold `t` of `s` is ready to commit, and nothing else happened. */
  ghost predicate Readied(s: State, t: nat, p: State) {
    && HoldAt(p, t, Ready) && t in s.txs && p.txs[t].op == s.txs[t].op && p.txs[t].ts == s.w.clock && p.txs[t].id == s.nextId
    && p == s.(txs := s.txs[t := p.txs[t]], nextId := s.nextId + 1)
  }

  function ReadyHold(s: State, x: Tx): Tx
    requires x.op.Hold?
  {
    var y := WithRow(Prepared(s, x), s.nextId);
    if x.op.key == "" then y else WithKey(y)
  }

  lemma HoldIsReady(s: State, t: nat) returns (ss: seq<State>, mvs: seq<Move>)
    requires HoldAt(s, t, LookedUp) && Idle(s.txs[t]) && QuietBut(s, t)
    requires !Blocked(s.w.db.bookings, s.txs[t].op.m, s.txs[t].op.s, s.w.clock)
    requires SeatExists(s.w.db, s.txs[t].op.m, s.txs[t].op.s)
    requires s.txs[t].op.key != "" && s.txs[t].op.key in s.w.db.keys ==>
               s.txs[t].stale == Some(s.w.db.keys[s.txs[t].op.key].bookingId)
    ensures IsPath(Next, ss, mvs) && ss[0] == s
    ensures Readied(s, t, ss[|mvs|])
  {
    ss, mvs := Inserts(s, t);
    if s.txs[t].op.key != "" {
      var p := ss[|mvs|];
      var s1 := p.(txs := p.txs[t := WithKey(p.txs[t])]);
      KeyInsertEnabled(p, t, s1);
      Extend(Next, ss, mvs, InsertKey(t), s1);
      ss, mvs := ss + [s1], mvs + [InsertKey(t)];
    }
    ReadyHoldIs(s, s.txs[t]);
  }

  /** A lone hold from its lookup on, when the seat is to be had and the key was not moved. */
  lemma HoldSucceeds(s: State, t: nat) returns (ss: seq<State>, mvs: seq<Move>)
    requires Inv(s) && HoldAt(s, t, LookedUp) && Idle(s.txs[t]) && QuietBut(s, t)
    requires !Blocked(s.w.db.bookings, s.txs[t].op.m, s.txs[t].op.s, s.w.clock)
    requires SeatExists(s.w.db, s.txs[t].op.m, s.txs[t].op.s)
    requires s.txs[t].op.key != "" && s.txs[t].op.key in s.w.db.keys ==>
               s.txs[t].stale == Some(s.w.db.keys[s.txs[t].op.key].bookingId)
    ensures IsPath(Next, ss, mvs) && ss[0] == s && |mvs| > 0
    ensures mvs[|mvs| - 1] == Commit(t) && t in ss[|mvs| - 1].txs && ss[|mvs| - 1].txs[t].id == s.nextId
    ensures var o, s' := s.txs[t].op, ss[|mvs|];
            && ShopOf(s') == Granted(ShopOf(s), s.w.clock, o.m, o.s, o.b, o.ttl, o.key)
            && s'.txs == s.txs - {t} && s'.w.clock == s.w.clock
  {
    ss, mvs := HoldIsReady(s, t);
    PathKeepsInv(ss, mvs, |mvs|);
    ReadyHoldCommits(s, t, ss[|mvs|]);
    ss, mvs := Commits(ss, mvs, t);
  }

  lemma ReadyHoldIs(s: State, x: Tx)
    requires x.op.Hold?
    ensures var y := ReadyHold(s, x); y.pc == Ready && y.id == s.nextId && y.op == x.op && y.ts == s.w.clock
  {
  }

  lemma CommittedHold(p: State, t: nat, st: Shop)
    requires Inv(p) && HoldAt(p, t, Ready) && p.txs[t].id == st.nextId && p.w.db == st.db
    requires p.nextId == st.nextId + 1 && p.nextRefund == st.nextRefund && p.nextEvent == st.nextEvent
    ensures var o := p.txs[t].op;
            ShopOf(Committed(p, t)) == Granted(st, p.txs[t].ts, o.m, o.s, o.b, o.ttl, o.key)
  {
    GrantedIs(p, t, st);
  }

  lemma ReadyHoldCommits(s: State, t: nat, p: State)
    requires Inv(p) && Readied(s, t, p)
    ensures var o, s' := s.txs[t].op, Committed(p, t);
            && ShopOf(s') == Granted(ShopOf(s), s.w.clock, o.m, o.s, o.b, o.ttl, o.key)
            && s'.txs == s.txs - {t} && s'.w.clock == s.w.clock
  {
    CommittedHold(p, t, ShopOf(s));
    SameRest(s.txs, t, p.txs[t]);
  }

  lemma SameRest(txs: map<nat, Tx>, t: nat, x: Tx)
    ensures txs[t := x] - {t} == txs - {t}
  {
  }

  lemma StillBlocked(s: State, x: Tx) returns (i: Id)
    requires x.op.Hold? && Blocked(s.w.db.bookings, x.op.m, x.op.s, s.w.clock)
    ensures i in s.w.db.bookings && i !in Prepared(s, x).rows && ActiveAt(s.w.db.bookings[i], x.op.m, x.op.s)
  {
    var bs := s.w.db.bookings;
    i :| i in bs && ActiveAt(bs[i], x.op.m, x.op.s) && !StaleHold(bs[i], x.op.m, x.op.s, s.w.clock);
  }

  lemma RejectEnabled(p: State, t: nat, i: Id, s1: State)
    requires HoldAt(p, t, ExpireDone) && QuietBut(p, t)
    requires i in p.w.db.bookings && i !in p.txs[t].rows && ActiveAt(p.w.db.bookings[i], p.txs[t].op.m, p.txs[t].op.s)
    requires s1 == p.(txs := p.txs[t := Failed'(p.txs[t])], nextId := p.nextId + 1)
    ensures IsPath(Next, [p, s1], [RejectRow(t)])
  {
    assert RowFree(p, t, i);
  }

  lemma RefusalEnabled(p: State, t: nat)
    requires HoldAt(p, t, Rejected) && p.txs[t].ts <= p.w.clock && LookupGoesOn(p.w, p.txs[t].op, p.w.clock)
    ensures IsPath(Next, [p, p.(txs := p.txs - {t})], [RecoveryRefuses(t, p.w.clock)])
  {
  }

  /** A lone hold on a seat that is not to be had: rejected, rolled back and refused. */
  lemma HoldIsRefused(s: State, t: nat) returns (ss: seq<State>, mvs: seq<Move>)
    requires HoldAt(s, t, LookedUp) && Idle(s.txs[t]) && QuietBut(s, t)
    requires Blocked(s.w.db.bookings, s.txs[t].op.m, s.txs[t].op.s, s.w.clock) && LookupGoesOn(s.w, s.txs[t].op, s.w.clock)
    ensures IsPath(Next, ss, mvs) && ss[0] == s && |mvs| > 0 && mvs[|mvs| - 1] == RecoveryRefuses(t, s.w.clock)
    ensures ss[|mvs|] == s.(txs := s.txs - {t}, nextId := s.nextId + 1) && ss[|mvs| - 1].w == s.w
  {
    ss, mvs := Prepares(s, t);
    var p := ss[|mvs|];
    var i := StillBlocked(s, s.txs[t]);
    var s1 := p.(txs := p.txs[t := Failed'(p.txs[t])], nextId := p.nextId + 1);
    RejectEnabled(p, t, i, s1);
    Extend(Next, ss, mvs, RejectRow(t), s1);
    ss, mvs := ss + [s1], mvs + [RejectRow(t)];
    RefusalEnabled(s1, t);
    var s2 := s1.(txs := s1.txs - {t});
    Extend(Next, ss, mvs, RecoveryRefuses(t, s.w.clock), s2);
    ss, mvs := ss + [s2], mvs + [RecoveryRefuses(t, s.w.clock)];
    assert s2.txs == s.txs - {t};
  }

  /** A seat that does not exist: the INSERT draws an id and fails. */
  lemma HoldFails(s: State, t: nat) returns (ss: seq<State>, mvs: seq<Move>)
    requires HoldAt(s, t, LookedUp)
    ensures IsPath(Next, ss, mvs) && ss[0] == s && |mvs| > 0 && mvs[|mvs| - 1] == Abort(t)
    ensures ss[|mvs|] == s.(txs := s.txs - {t}, nextId := s.nextId + 1)
  {
    var skip := SkipIds(s.nextId + 1, s.nextRefund, s.nextEvent);
    var s1 := s.(nextId := s.nextId + 1);
    var s2 := s1.(txs := s1.txs - {t});
    assert NextOther(s, skip, s1);
    assert NextOther(s1, Abort(t), s2);
    ss, mvs := [s, s1, s2], [skip, Abort(t)];
  }

  // ---------------------------------------------------------------- a whole hold request

  /** The last move of a hold request, from `s` to `s'`, gives its answer; a booking that is answered is the
      row the table then has under that id. */
  ghost predicate Answers(s: State, mv: Move, s': State, t: nat, op: Op, a: Answer) {
    match a
    case Placed(id, row) =>
      && ((mv == Commit(t) && t in s.txs && s.txs[t].id == id) || mv == LookupReplays(op, id, s.w.clock))
      && id in s'.w.db.bookings && row == s'.w.db.bookings[id]
    case ErrIdempotencyKeyReuse => mv == LookupMismatches(op)
    case ErrSeatUnavailable => mv == RecoveryRefuses(t, s.w.clock)
    case ErrForeignKey => mv == Abort(t)
    case _ => false
  }

  ghost function PlaceOf(s: State, op: Op): (Shop, Answer)
    requires op.Hold?
  {
    Place(ShopOf(s), s.w.clock, op.m, op.s, op.b, op.ttl, op.key)
  }

  ghost predicate GoesOn(s: State, op: Op)
    requires op.Hold?
  {
    op.key != "" ==>
      Lookup(s.w.db, s.w.clock, op.m, op.s, op.b, op.key).Miss? || Lookup(s.w.db, s.w.clock, op.m, op.s, op.b, op.key).DeadRow?
  }

  /** The fast path answers: nothing was begun. */
  lemma LookupAnswers(s: State, t: nat, op: Op) returns (mv: Move)
    requires op.Hold? && !GoesOn(s, op)
    ensures Next(s, mv, s) && PlaceOf(s, op).0 == ShopOf(s) && Answers(s, mv, s, t, op, PlaceOf(s, op).1)
  {
    var found := Lookup(s.w.db, s.w.clock, op.m, op.s, op.b, op.key);
    if found.Mismatch? {
      mv := LookupMismatches(op);
    } else {
      mv := LookupReplays(op, found.id, s.w.clock);
    }
    assert NextHold(s, mv, s);
  }

  lemma LookupStarts(s: State, t: nat, op: Op)
    requires t !in s.txs && op.Hold? && GoesOn(s, op) && A.Keyed(s.w)
    ensures LookupGoesOn(s.w, op, s.w.clock)
    ensures Next(s, LookupProceeds(t, op, s.w.clock), s.(txs := s.txs[t := Fresh(op, LookedUp, s.w.clock, StaleMapping(s.w, op), {})]))
  {
  }

  lemma PlaceGoesOn(s: State, op: Op)
    requires op.Hold? && GoesOn(s, op)
    ensures PlaceOf(s, op) ==
            if Blocked(s.w.db.bookings, op.m, op.s, s.w.clock) then (ShopOf(s).(nextId := s.nextId + 1), ErrSeatUnavailable)
            else if !SeatExists(s.w.db, op.m, op.s) then (ShopOf(s).(nextId := s.nextId + 1), ErrForeignKey)
            else (Granted(ShopOf(s), s.w.clock, op.m, op.s, op.b, op.ttl, op.key),
                  Placed(s.nextId, HeldRow(op.m, op.s, op.b, s.w.clock, op.ttl)))
  {
  }

  /** The path `ss` from `s` ends with the tables and the answer of the specification, given as `place`. */
  ghost predicate Ends(s: State, t: nat, op: Op, place: (Shop, Answer), ss: seq<State>, mvs: seq<Move>) {
    && IsPath(Next, ss, mvs) && ss[0] == s && |mvs| > 0
    && ShopOf(ss[|mvs|]) == place.0 && ss[|mvs|].txs == s.txs - {t} && ss[|mvs|].w.clock == s.w.clock
    && Answers(ss[|mvs| - 1], mvs[|mvs| - 1], ss[|mvs|], t, op, place.1)
  }

  lemma RefusalEnds(s: State, t: nat) returns (ss: seq<State>, mvs: seq<Move>)
    requires HoldAt(s, t, LookedUp) && Idle(s.txs[t]) && QuietBut(s, t)
    requires Blocked(s.w.db.bookings, s.txs[t].op.m, s.txs[t].op.s, s.w.clock) && LookupGoesOn(s.w, s.txs[t].op, s.w.clock)
    ensures Ends(s, t, s.txs[t].op, (ShopOf(s).(nextId := s.nextId + 1), ErrSeatUnavailable), ss, mvs)
  {
    ss, mvs := HoldIsRefused(s, t);
  }

  lemma FailureEnds(s: State, t: nat) returns (ss: seq<State>, mvs: seq<Move>)
    requires HoldAt(s, t, LookedUp)
    ensures Ends(s, t, s.txs[t].op, (ShopOf(s).(nextId := s.nextId + 1), ErrForeignKey), ss, mvs)
  {
    ss, mvs := HoldFails(s, t);
  }

  lemma SuccessEnds(s: State, t: nat, g: Shop, r: Booking) returns (ss: seq<State>, mvs: seq<Move>)
    requires Inv(s) && HoldAt(s, t, LookedUp) && Idle(s.txs[t]) && QuietBut(s, t)
    requires !Blocked(s.w.db.bookings, s.txs[t].op.m, s.txs[t].op.s, s.w.clock)
    requires SeatExists(s.w.db, s.txs[t].op.m, s.txs[t].op.s) && s.txs[t].stale == StaleMapping(s.w, s.txs[t].op)
    requires var o := s.txs[t].op;
             g == Granted(ShopOf(s), s.w.clock, o.m, o.s, o.b, o.ttl, o.key) && r == HeldRow(o.m, o.s, o.b, s.w.clock, o.ttl)
    ensures Ends(s, t, s.txs[t].op, (g, Placed(s.nextId, r)), ss, mvs)
  {
    ss, mvs := HoldSucceeds(s, t);
    assert g.db.bookings[s.nextId] == r;
    assert ShopOf(ss[|mvs|]).db == g.db;
  }

  /** A hold from its lookup on ends as the specification says. */
  lemma LookedUpHoldIsAPath(s: State, t: nat) returns (ss: seq<State>, mvs: seq<Move>)
    requires Inv(s) && HoldAt(s, t, LookedUp) && Idle(s.txs[t]) && QuietBut(s, t)
    requires GoesOn(s, s.txs[t].op) && LookupGoesOn(s.w, s.txs[t].op, s.w.clock) && s.txs[t].stale == StaleMapping(s.w, s.txs[t].op)
    ensures Ends(s, t, s.txs[t].op, PlaceOf(s, s.txs[t].op), ss, mvs)
  {
    var op := s.txs[t].op;
    PlaceGoesOn(s, op);
    if Blocked(s.w.db.bookings, op.m, op.s, s.w.clock) {
      ss, mvs := RefusalEnds(s, t);
    } else if !SeatExists(s.w.db, op.m, op.s) {
      ss, mvs := FailureEnds(s, t);
    } else {
      ss, mvs := SuccessEnds(s, t, PlaceOf(s, op).0, HeldRow(op.m, op.s, op.b, s.w.clock, op.ttl));
    }
  }

  lemma EndsAfterLookup(s: State, t: nat, op: Op, s1: State, ts: seq<State>, nvs: seq<Move>, place: (Shop, Answer))
    requires t !in s.txs && t in s1.txs && s1 == s.(txs := s.txs[t := s1.txs[t]]) && Next(s, LookupProceeds(t, op, s.w.clock), s1)
    requires Ends(s1, t, op, place, ts, nvs)
    ensures Ends(s, t, op, place, [s, s1] + ts[1..], [LookupProceeds(t, op, s.w.clock)] + nvs)
  {
    assert s1.txs - {t} == s.txs - {t};
    assert IsPath(Next, [s, s1], [LookupProceeds(t, op, s.w.clock)]);
    Chain(Next, [s, s1], [LookupProceeds(t, op, s.w.clock)], ts, nvs);
    var us, ovs := [s, s1] + ts[1..], [LookupProceeds(t, op, s.w.clock)] + nvs;
    assert us[|ovs| - 1] == ts[|nvs| - 1] && us[|ovs|] == ts[|nvs|] && ovs[|ovs| - 1] == nvs[|nvs| - 1];
  }

  /** placeHold without interference, keyed or not, whatever its outcome. */
  lemma LoneHoldIsAPath(s: State, t: nat, op: Op) returns (ss: seq<State>, mvs: seq<Move>)
    requires Inv(s) && t !in s.txs && QuietBut(s, t) && op.Hold?
    ensures Ends(s, t, op, PlaceOf(s, op), ss, mvs)
  {
    if !GoesOn(s, op) {
      ss, mvs := AnsweredAtOnce(s, t, op);
    } else {
      LookupStarts(s, t, op);
      var s1 := s.(txs := s.txs[t := Fresh(op, LookedUp, s.w.clock, StaleMapping(s.w, op), {})]);
      R.MoveKeepsInv(s, LookupProceeds(t, op, s.w.clock), s1);
      ss, mvs := StartedHoldIsAPath(s, t, op, s1);
    }
  }

  lemma AnsweredAtOnce(s: State, t: nat, op: Op) returns (ss: seq<State>, mvs: seq<Move>)
    requires t !in s.txs && op.Hold? && !GoesOn(s, op)
    ensures Ends(s, t, op, PlaceOf(s, op), ss, mvs)
  {
    var mv := LookupAnswers(s, t, op);
    assert IsPath(Next, [s, s], [mv]);
    assert s.txs - {t} == s.txs;
    ss, mvs := [s, s], [mv];
  }

  lemma StartedHoldIsAPath(s: State, t: nat, op: Op, s1: State) returns (ss: seq<State>, mvs: seq<Move>)
    requires t !in s.txs && QuietBut(s, t) && op.Hold? && GoesOn(s, op) && LookupGoesOn(s.w, op, s.w.clock)
    requires s1 == s.(txs := s.txs[t := Fresh(op, LookedUp, s.w.clock, StaleMapping(s.w, op), {})])
    requires Inv(s1) && Next(s, LookupProceeds(t, op, s.w.clock), s1)
    ensures Ends(s, t, op, PlaceOf(s, op), ss, mvs)
  {
    var ts, nvs := LookedUpHoldIsAPath(s1, t);
    EndsAfterLookup(s, t, op, s1, ts, nvs, PlaceOf(s, op));
    ss, mvs := [s, s1] + ts[1..], [LookupProceeds(t, op, s.w.clock)] + nvs;
  }

  // ---------------------------------------------------------------- confirm, release, cancel

  function Begun'(s: State, t: nat, op: Op): State {
    s.(txs := s.txs[t := Fresh(op, Begun, s.w.clock, None, {})])
  }

  function Snapped'(s: State, t: nat): State
    requires t in s.txs
  {
    s.(txs := s.txs[t := Seen(s.txs[t], Snapped, s.w.db.bookings)])
  }

  lemma StatementOpens(s: State, t: nat, op: Op)
    requires t !in s.txs && !op.Hold?
    ensures IsPath(Next, [s, Begun'(s, t, op), Snapped'(Begun'(s, t, op), t)], [StartStatement(t, op), TakeSnapshot(t)])
  {
    var s1 := Begun'(s, t, op);
    assert NextOther(s, StartStatement(t, op), s1);
    assert NextOther(s1, TakeSnapshot(t), Snapped'(s1, t));
  }

  /** The single statement `op` of transaction `t`, on a row it may write. */
  ghost predicate Applies(s: State, t: nat, id: Id) {
    At(s, t, Snapped) && QuietBut(s, t) && id in s.txs[t].seen && id in s.w.db.bookings
  }

  /** What a one-row update leaves once committed. */
  lemma RowIsCommitted(s: State, t: nat, x: Tx, id: Id, r: Booking)
    requires t in s.txs && x.op == s.txs[t].op && !x.op.Hold? && !x.op.Cancel?
    requires x.rows == map[id := r] && x.dels == {} && x.adds == map[]
    ensures var p := s.(txs := s.txs[t := x]);
            && ShopOf(Committed(p, t)) == WithBooking(ShopOf(s), id, r) && Committed(p, t).txs == s.txs - {t}
            && Committed(p, t).w.clock == s.w.clock
  {
    R.PointWrites(s.w.db.bookings, s.w.db.keys, x, id, r);
    SameRest(s.txs, t, x);
  }

  lemma CommitEnabled(p: State, t: nat)
    requires At(p, t, Ready)
    ensures IsPath(Next, [p, Committed(p, t)], [Commit(t)])
  {
    assert NextOther(p, Commit(t), Committed(p, t));
  }

  function RanConfirm(s: State, t: nat, id: Id): State
    requires t in s.txs && id in s.w.db.bookings
  {
    s.(txs := s.txs[t := s.txs[t].(pc := Ready, rows := map[id := ConfirmedRow(s.w.db.bookings[id], s.txs[t].ts)])])
  }

  lemma ConfirmEnabled(s: State, t: nat, id: Id, b: string)
    requires Applies(s, t, id) && s.txs[t].op == Confirm(id, b) && A.Confirmable(s.w.db.bookings, id, b, s.txs[t].ts)
    ensures IsPath(Next, [s, RanConfirm(s, t, id)], [RunConfirm(t)])
  {
    assert NextOther(s, RunConfirm(t), RanConfirm(s, t, id));
  }

  lemma ConfirmIsCommitted(s: State, t: nat, id: Id, b: string)
    requires t in s.txs && Idle(s.txs[t]) && s.txs[t].op == Confirm(id, b) && id in s.w.db.bookings
    ensures var s' := Committed(RanConfirm(s, t, id), t);
            && ShopOf(s') == WithBooking(ShopOf(s), id, ConfirmedRow(s.w.db.bookings[id], s.txs[t].ts))
            && s'.txs == s.txs - {t} && s'.w.clock == s.w.clock
  {
    RowIsCommitted(s, t, RanConfirm(s, t, id).txs[t], id, ConfirmedRow(s.w.db.bookings[id], s.txs[t].ts));
  }

  function RanRelease(s: State, t: nat, id: Id): State
    requires t in s.txs && id in s.w.db.bookings
  {
    s.(txs := s.txs[t := s.txs[t].(pc := Ready, rows := map[id := CancelledRow(s.w.db.bookings[id], s.txs[t].ts)])])
  }

  lemma ReleaseEnabled(s: State, t: nat, id: Id, b: string)
    requires Applies(s, t, id) && s.txs[t].op == Release(id, b) && A.Releasable(s.w.db.bookings, id, b)
    ensures IsPath(Next, [s, RanRelease(s, t, id)], [RunRelease(t)])
  {
    assert NextOther(s, RunRelease(t), RanRelease(s, t, id));
  }

  lemma ReleaseIsCommitted(s: State, t: nat, id: Id, b: string)
    requires t in s.txs && Idle(s.txs[t]) && s.txs[t].op == Release(id, b) && id in s.w.db.bookings
    ensures var s' := Committed(RanRelease(s, t, id), t);
            && ShopOf(s') == WithBooking(ShopOf(s), id, CancelledRow(s.w.db.bookings[id], s.txs[t].ts))
            && s'.txs == s.txs - {t} && s'.w.clock == s.w.clock
  {
    RowIsCommitted(s, t, RanRelease(s, t, id).txs[t], id, CancelledRow(s.w.db.bookings[id], s.txs[t].ts));
  }

  function RanCancel(s: State, t: nat, id: Id): State
    requires t in s.txs && id in s.w.db.bookings
  {
    s.(txs := s.txs[t := s.txs[t].(pc := Ready, refundId := s.nextRefund, eventId := s.nextEvent,
                                   rows := map[id := CancelledRow(s.w.db.bookings[id], s.txs[t].ts)])],
       nextRefund := s.nextRefund + 1, nextEvent := s.nextEvent + 1)
  }

  lemma CasEnabled(s: State, t: nat, id: Id, b: string, s': State)
    requires Applies(s, t, id) && s.txs[t].op == Cancel(id, b) && A.Cancellable(s.w.db, id, b, s.txs[t].ts)
    requires s' == s.(txs := s.txs[t := s.txs[t].(pc := CasDone, rows := map[id := CancelledRow(s.w.db.bookings[id], s.txs[t].ts)])])
    ensures IsPath(Next, [s, s'], [RunCas(t)])
  {
    assert NextOther(s, RunCas(t), s');
  }

  lemma RefundEnabled(s: State, t: nat, s': State)
    requires At(s, t, CasDone) && s.txs[t].op.Cancel?
    requires s' == s.(txs := s.txs[t := s.txs[t].(pc := RefundDone, refundId := s.nextRefund)], nextRefund := s.nextRefund + 1)
    ensures IsPath(Next, [s, s'], [InsertRefund(t)])
  {
    assert NextOther(s, InsertRefund(t), s');
  }

  lemma EventEnabled(s: State, t: nat, s': State)
    requires At(s, t, RefundDone) && s.txs[t].op.Cancel?
    requires s' == s.(txs := s.txs[t := s.txs[t].(pc := Ready, eventId := s.nextEvent)], nextEvent := s.nextEvent + 1)
    ensures IsPath(Next, [s, s'], [InsertEvent(t)])
  {
    assert NextOther(s, InsertEvent(t), s');
  }

  lemma CancelRuns(s: State, t: nat, id: Id, b: string) returns (ss: seq<State>, mvs: seq<Move>)
    requires Applies(s, t, id) && s.txs[t].op == Cancel(id, b) && A.Cancellable(s.w.db, id, b, s.txs[t].ts)
    ensures IsPath(Next, ss, mvs) && ss[0] == s && ss[|mvs|] == RanCancel(s, t, id)
  {
    var x1 := s.txs[t].(pc := CasDone, rows := map[id := CancelledRow(s.w.db.bookings[id], s.txs[t].ts)]);
    var s1 := s.(txs := s.txs[t := x1]);
    var x2 := x1.(pc := RefundDone, refundId := s.nextRefund);
    var s2 := s1.(txs := s1.txs[t := x2], nextRefund := s.nextRefund + 1);
    var s3 := s2.(txs := s2.txs[t := x2.(pc := Ready, eventId := s.nextEvent)], nextEvent := s.nextEvent + 1);
    CasEnabled(s, t, id, b, s1);
    RefundEnabled(s1, t, s2);
    EventEnabled(s2, t, s3);
    assert s3.txs == RanCancel(s, t, id).txs;
    ThreeSteps(Next, s, RunCas(t), s1, InsertRefund(t), s2, InsertEvent(t), s3);
    ss, mvs := [s, s1, s2, s3], [RunCas(t), InsertRefund(t), InsertEvent(t)];
  }

  lemma CancelIsCommitted(s: State, t: nat, id: Id, b: string)
    requires t in s.txs && Idle(s.txs[t]) && s.txs[t].op == Cancel(id, b) && A.Cancellable(s.w.db, id, b, s.txs[t].ts)
    ensures var s' := Committed(RanCancel(s, t, id), t);
            ShopOf(s') == StoreModel.Cancel(ShopOf(s), s.txs[t].ts, id, b).0 && s'.txs == s.txs - {t} && s'.w.clock == s.w.clock
  {
    var x := RanCancel(s, t, id).txs[t];
    R.PointWrites(s.w.db.bookings, s.w.db.keys, x, id, CancelledRow(s.w.db.bookings[id], x.ts));
    SameRest(s.txs, t, x);
  }

  lemma NothingEnabled(s: State, t: nat)
    requires At(s, t, Snapped)
    requires match s.txs[t].op
             case Confirm(id, b) => !A.Confirmable(s.w.db.bookings, id, b, s.txs[t].ts)
             case Release(id, b) => !A.Releasable(s.w.db.bookings, id, b)
             case Cancel(id, b) => !A.Cancellable(s.w.db, id, b, s.txs[t].ts)
             case _ => false
    ensures IsPath(Next, [s, s.(txs := s.txs - {t})], [FindNothing(t)])
  {
    assert NextOther(s, FindNothing(t), s.(txs := s.txs - {t}));
  }

  // ---------------------------------------------------------------- whole statements

  predicate Succeeds(a: Answer) {
    a.ConfirmedAs? || a.ReleasedIn? || a.CancelledAs?
  }

  /** The answer to `op` tells what the tables then have under its id. */
  ghost predicate Tells(a: Answer, op: Op, bs: map<Id, Booking>) {
    match a
    case ConfirmedAs(row) => op.Confirm? && op.id in bs && row == bs[op.id]
    case ReleasedIn(m) => op.Release? && op.id in bs && m == bs[op.id].matchId
    case CancelledAs(row) => op.Cancel? && op.id in bs && row == bs[op.id]
    case ErrHoldExpired => op.Confirm? || op.Cancel?
    case ErrNotFound => op.Release?
    case _ => false
  }

  /** The path `ss` ends with the tables and the answer of the specification, given as `spec`, and with
      nothing else changed: a success commits, and a refusal has found nothing. */
  ghost predicate Leaves(s: State, t: nat, op: Op, spec: (Shop, Answer), ss: seq<State>, mvs: seq<Move>) {
    && IsPath(Next, ss, mvs) && ss[0] == s && |mvs| > 0
    && Tells(spec.1, op, ss[|mvs|].w.db.bookings)
    && mvs[|mvs| - 1] == (if Succeeds(spec.1) then Commit(t) else FindNothing(t))
    && ShopOf(ss[|mvs|]) == spec.0 && ss[|mvs|].txs == s.txs && ss[|mvs|].w.clock == s.w.clock
  }

  function SpecOf(st: Shop, now: Time, op: Op): (Shop, Answer)
    requires op.Confirm? || op.Release? || op.Cancel?
  {
    match op
    case Confirm(id, b) => StoreModel.Confirm(st, now, id, b)
    case Release(id, b) => StoreModel.Release(st, now, id, b)
    case Cancel(id, b) => StoreModel.Cancel(st, now, id, b)
  }

  lemma SpecTells(st: Shop, now: Time, op: Op)
    requires op.Confirm? || op.Release? || op.Cancel?
    ensures Tells(SpecOf(st, now, op).1, op, SpecOf(st, now, op).0.db.bookings)
  {
  }

  lemma SucceedsIffFinds(s: State, op: Op)
    requires op.Confirm? || op.Release? || op.Cancel?
    ensures Succeeds(SpecOf(ShopOf(s), s.w.clock, op).1) <==> Finds(s.w, op)
  {
  }

  predicate Finds(w: A.World, op: Op)
    requires op.Confirm? || op.Release? || op.Cancel?
  {
    match op
    case Confirm(id, b) => A.Confirmable(w.db.bookings, id, b, w.clock)
    case Release(id, b) => A.Releasable(w.db.bookings, id, b)
    case Cancel(id, b) => A.Cancellable(w.db, id, b, w.clock)
  }

  lemma StatementRuns(s: State, t: nat, op: Op) returns (ss: seq<State>, mvs: seq<Move>, p: State)
    requires (op.Confirm? || op.Release? || op.Cancel?) && Finds(s.w, op) && QuietBut(s, t)
    requires At(s, t, Snapped) && s.txs[t] == Fresh(op, Snapped, s.w.clock, None, s.w.db.bookings.Keys)
    ensures IsPath(Next, ss, mvs) && ss[0] == s && ss[|mvs|] == p && At(p, t, Ready)
    ensures var s' := Committed(p, t);
            ShopOf(s') == SpecOf(ShopOf(s), s.w.clock, op).0 && s'.txs == s.txs - {t} && s'.w.clock == s.w.clock
  {
    match op
    case Confirm(id, b) =>
      ConfirmEnabled(s, t, id, b);
      ConfirmIsCommitted(s, t, id, b);
      p := RanConfirm(s, t, id);
      ss, mvs := [s, p], [RunConfirm(t)];
    case Release(id, b) =>
      ReleaseEnabled(s, t, id, b);
      ReleaseIsCommitted(s, t, id, b);
      p := RanRelease(s, t, id);
      ss, mvs := [s, p], [RunRelease(t)];
    case Cancel(id, b) =>
      ss, mvs := CancelRuns(s, t, id, b);
      CancelIsCommitted(s, t, id, b);
      p := RanCancel(s, t, id);
  }

  lemma SnappedStatementIsAPath(s: State, t: nat, op: Op) returns (ss: seq<State>, mvs: seq<Move>)
    requires (op.Confirm? || op.Release? || op.Cancel?) && QuietBut(s, t)
    requires At(s, t, Snapped) && s.txs[t] == Fresh(op, Snapped, s.w.clock, None, s.w.db.bookings.Keys)
    ensures IsPath(Next, ss, mvs) && ss[0] == s && |mvs| > 0 && mvs[|mvs| - 1] == (if Finds(s.w, op) then Commit(t) else FindNothing(t))
    ensures var s' := ss[|mvs|];
            ShopOf(s') == SpecOf(ShopOf(s), s.w.clock, op).0 && s'.txs == s.txs - {t} && s'.w.clock == s.w.clock
  {
    if Finds(s.w, op) {
      var p;
      ss, mvs, p := StatementRuns(s, t, op);
      CommitEnabled(p, t);
      Extend(Next, ss, mvs, Commit(t), Committed(p, t));
      ss, mvs := ss + [Committed(p, t)], mvs + [Commit(t)];
    } else {
      NothingEnabled(s, t);
      ss, mvs := [s, s.(txs := s.txs - {t})], [FindNothing(t)];
    }
  }

  /** ConfirmHold, ReleaseHold and CancelBooking without interference, successful or not. */
  lemma LoneStatementIsAPath(s: State, t: nat, op: Op) returns (ss: seq<State>, mvs: seq<Move>)
    requires (op.Confirm? || op.Release? || op.Cancel?) && t !in s.txs && QuietBut(s, t)
    ensures Leaves(s, t, op, SpecOf(ShopOf(s), s.w.clock, op), ss, mvs)
  {
    var s1 := Begun'(s, t, op);
    var s2 := Snapped'(s1, t);
    StatementOpens(s, t, op);
    var ts, nvs := SnappedStatementIsAPath(s2, t, op);
    Chain(Next, [s, s1, s2], [StartStatement(t, op), TakeSnapshot(t)], ts, nvs);
    ss, mvs := [s, s1, s2] + ts[1..], [StartStatement(t, op), TakeSnapshot(t)] + nvs;
    assert s2.txs - {t} == s.txs;
    assert mvs[|mvs| - 1] == nvs[|nvs| - 1];
    SucceedsIffFinds(s, op);
    SpecTells(ShopOf(s), s.w.clock, op);
    assert ShopOf(ss[|mvs|]).db == ss[|mvs|].w.db;
  }
}
