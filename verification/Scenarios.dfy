/**
 Runs from the initial state in which a promise of the documentation fails. Each shows that the
 condition of the corresponding theorem of module Runs is needed.
 */
module Scenarios {
  import opened Options
  import opened Tables
  import opened Interleaving
  import opened Paths
  import opened StoreModel
  import opened LoneCalls
  import A = Atomic
  import H = History
  import R = Refinement
  import Runs

  /** One match with one seat, starting at time 1000. */
  const START: State :=
    State(A.World(Db(map[("m", "s") := "A"], map["m" := 1000], map[], map[], map[], map[]), 0, map[]), map[], 1, 1, 1)

  /** The path leads from the initial state to `s`. */
  ghost predicate Leads(ss: seq<State>, mvs: seq<Move>, s: State) {
    IsPath(Next, ss, mvs) && ss[0] == START && ss[|mvs|] == s
  }

  lemma LeadsOn(ss: seq<State>, mvs: seq<Move>, ts: seq<State>, nvs: seq<Move>)
    requires IsPath(Next, ss, mvs) && ss[0] == START && IsPath(Next, ts, nvs) && ts[0] == ss[|mvs|]
    ensures Leads(ss + ts[1..], mvs + nvs, ts[|nvs|])
  {
    Chain(Next, ss, mvs, ts, nvs);
  }

  lemma LeadsToInv(ss: seq<State>, mvs: seq<Move>, s: State)
    requires Leads(ss, mvs, s)
    ensures Inv(s)
  {
    PathKeepsInv(ss, mvs, |mvs|);
  }

  lemma PathIsRun(ss: seq<State>, mvs: seq<Move>)
    requires IsPath(Next, ss, mvs) && ss[0] == START
    ensures Runs.IsRun(ss, mvs)
  {
    forall k | 0 <= k < |mvs| ensures Next(ss[k], mvs[k], ss[k + 1]) {
      StepAt(Next, ss, mvs, k);
    }
  }

  /** Nothing to cancel or expire where nothing is held. */
  lemma NothingToClear(bs: map<Id, Booking>, m: string, s: string, b: string, now: Time)
    requires forall i :: i in bs ==> bs[i].status != Held
    ensures Cleared(bs, m, s, b, now) == bs
  {
  }

  // ---------------------------------------------------------------- a confirm that commits late

  const HOLD := Hold("m", "s", "b", 10, "")
  const HELD := HeldRow("m", "s", "b", 0, 10)

  lemma FirstHold() returns (ss: seq<State>, mvs: seq<Move>, s: State)
    ensures Leads(ss, mvs, s) && s.txs == map[] && s.w.clock == 0
    ensures s.w.db == START.w.db.(bookings := map[1 := HELD]) && s.nextId == 2
  {
    ss, mvs := LoneHoldIsAPath(START, 1, HOLD);
    s := ss[|mvs|];
    NothingToClear(map[], "m", "s", "b", 0);
    PlaceGoesOn(START, HOLD);
    assert START.txs - {1} == map[];
  }

  /** From a fresh hold: the confirm's statement runs, the clock passes the expiry, the commit follows. */
  lemma ConfirmWaits(s: State) returns (ss: seq<State>, mvs: seq<Move>)
    requires s.txs == map[] && s.w.clock == 0 && s.w.db.bookings == map[1 := HELD]
    ensures IsPath(Next, ss, mvs) && ss[0] == s && |mvs| > 0 && mvs[|mvs| - 1] == Commit(2)
    ensures var p := ss[|mvs| - 1];
            2 in p.txs && p.txs[2].op == Confirm(1, "b") && p.w.clock == 11 && p.w.db.bookings == map[1 := HELD]
    ensures ss[|mvs|].w.db.bookings == map[1 := ConfirmedRow(HELD, 0)]
  {
    var op := Confirm(1, "b");
    var s1 := Begun'(s, 2, op);
    var s2 := Snapped'(s1, 2);
    StatementOpens(s, 2, op);
    ss, mvs := [s, s1, s2], [StartStatement(2, op), TakeSnapshot(2)];
    ConfirmEnabled(s2, 2, 1, "b");
    var s3 := RanConfirm(s2, 2, 1);
    Extend(Next, ss, mvs, RunConfirm(2), s3);
    ss, mvs := ss + [s3], mvs + [RunConfirm(2)];
    var s4 := s3.(w := s3.w.(clock := 11));
    TickEnabled(s3, 11);
    Extend(Next, ss, mvs, Tick(11), s4);
    ss, mvs := ss + [s4], mvs + [Tick(11)];
    CommitEnabled(s4, 2);
    Extend(Next, ss, mvs, Commit(2), Committed(s4, 2));
    ss, mvs := ss + [Committed(s4, 2)], mvs + [Commit(2)];
    R.PointWrites(s.w.db.bookings, s.w.db.keys, s4.txs[2], 1, ConfirmedRow(HELD, 0));
  }

  lemma TickEnabled(s: State, c: Time)
    requires s.w.clock <= c
    ensures IsPath(Next, [s, s.(w := s.w.(clock := c))], [Tick(c)])
  {
    assert NextOther(s, Tick(c), s.(w := s.w.(clock := c)));
  }

  /** Judged by the clock at its commit, a confirm can revive an expired hold. */
  lemma ConfirmCanCommitLate() returns (ss: seq<State>, mvs: seq<Move>, k: nat, id: Id)
    ensures Runs.IsRun(ss, mvs) && k < |mvs| && mvs[k].Commit? && mvs[k].t in ss[k].txs
    ensures ss[k].txs[mvs[k].t].op.Confirm? && ss[k].txs[mvs[k].t].op.id == id && id in ss[k].w.db.bookings
    ensures ss[k].w.db.bookings[id].holdExpiresAt.Some? && ss[k].w.clock > ss[k].w.db.bookings[id].holdExpiresAt.value
    ensures id in ss[k + 1].w.db.bookings && ss[k + 1].w.db.bookings[id].status == Confirmed
  {
    var s;
    ss, mvs, s := FirstHold();
    var ts, nvs := ConfirmWaits(s);
    LeadsOn(ss, mvs, ts, nvs);
    k, id := |mvs + nvs| - 1, 1;
    assert (ss + ts[1..])[k] == ts[|nvs| - 1] && (mvs + nvs)[k] == nvs[|nvs| - 1];
    ss, mvs := ss + ts[1..], mvs + nvs;
    PathIsRun(ss, mvs);
  }

  // ---------------------------------------------------------------- stored sale intervals that overlap

  const SOLD := ConfirmedRow(HELD, 0)
  const RETURNED := CancelledRow(SOLD, 10)
  const EARLY := Confirm(2, "c")
  const NEXT := HeldRow("m", "s", "c", 10, 10)

  /** The tables but the refunds and events. */
  ghost predicate Shows(s: State, clock: Time, bs: map<Id, Booking>, next: Id) {
    && s.w.clock == clock && s.w.db.bookings == bs && s.w.db.keys == map[] && s.nextId == next
    && s.w.db.seats == START.w.db.seats && s.w.db.matches == START.w.db.matches
  }

  lemma Sell(s: State) returns (ss: seq<State>, mvs: seq<Move>, s': State)
    requires s.txs == map[] && Shows(s, 0, map[1 := HELD], 2)
    ensures IsPath(Next, ss, mvs) && ss[0] == s && ss[|mvs|] == s' && s'.txs == map[] && Shows(s', 0, map[1 := SOLD], 2)
  {
    ss, mvs := LoneStatementIsAPath(s, 2, Confirm(1, "b"));
    s' := ss[|mvs|];
    assert map[1 := HELD][1 := SOLD] == map[1 := SOLD];
  }

  /** A confirm of a booking that does not exist yet draws its timestamp. */
  lemma StartEarly(s: State) returns (ss: seq<State>, mvs: seq<Move>, s': State)
    requires s.txs == map[] && Shows(s, 0, map[1 := SOLD], 2)
    ensures IsPath(Next, ss, mvs) && ss[0] == s && ss[|mvs|] == s'
    ensures s'.txs == map[9 := Fresh(EARLY, Begun, 5, None, {})] && Shows(s', 10, map[1 := SOLD], 2)
  {
    var s1 := s.(w := s.w.(clock := 5));
    var s2 := Begun'(s1, 9, EARLY);
    s' := s2.(w := s2.w.(clock := 10));
    TickEnabled(s, 5);
    StartEnabled(s1, 9, EARLY);
    TickEnabled(s2, 10);
    ThreeSteps(Next, s, Tick(5), s1, StartStatement(9, EARLY), s2, Tick(10), s');
    ss, mvs := [s, s1, s2, s'], [Tick(5), StartStatement(9, EARLY), Tick(10)];
    assert s'.txs == map[9 := Fresh(EARLY, Begun, 5, None, {})];
  }

  lemma StartEnabled(s: State, t: nat, op: Op)
    requires t !in s.txs && !op.Hold?
    ensures IsPath(Next, [s, Begun'(s, t, op)], [StartStatement(t, op)])
  {
    assert NextOther(s, StartStatement(t, op), Begun'(s, t, op));
  }

  lemma Return(s: State) returns (ss: seq<State>, mvs: seq<Move>, s': State)
    requires s.txs == map[9 := Fresh(EARLY, Begun, 5, None, {})] && Shows(s, 10, map[1 := SOLD], 2)
    ensures IsPath(Next, ss, mvs) && ss[0] == s && ss[|mvs|] == s'
    ensures s'.txs == s.txs && Shows(s', 10, map[1 := RETURNED], 2)
  {
    ss, mvs := LoneStatementIsAPath(s, 3, Cancel(1, "b"));
    s' := ss[|mvs|];
    assert map[1 := SOLD][1 := RETURNED] == map[1 := RETURNED];
  }

  lemma HoldAgain(s: State) returns (ss: seq<State>, mvs: seq<Move>, s': State)
    requires Inv(s) && s.txs == map[9 := Fresh(EARLY, Begun, 5, None, {})] && Shows(s, 10, map[1 := RETURNED], 2)
    ensures IsPath(Next, ss, mvs) && ss[0] == s && ss[|mvs|] == s'
    ensures s'.txs == s.txs && Shows(s', 10, map[1 := RETURNED, 2 := NEXT], 3)
  {
    ss, mvs, s' := HoldAlone(s, 4, AGAIN);
    SecondGrant(s);
  }

  lemma HoldAlone(s: State, t: nat, op: Op) returns (ss: seq<State>, mvs: seq<Move>, s': State)
    requires Inv(s) && t !in s.txs && QuietBut(s, t) && op.Hold?
    ensures IsPath(Next, ss, mvs) && ss[0] == s && ss[|mvs|] == s'
    ensures ShopOf(s') == PlaceOf(s, op).0 && s'.txs == s.txs && s'.w.clock == s.w.clock
  {
    ss, mvs := LoneHoldIsAPath(s, t, op);
    s' := ss[|mvs|];
    EndsAlone(s, t, op, PlaceOf(s, op), ss, mvs);
  }

  lemma EndsAlone(s: State, t: nat, op: Op, place: (Shop, Answer), ss: seq<State>, mvs: seq<Move>)
    requires Ends(s, t, op, place, ss, mvs) && t !in s.txs
    ensures IsPath(Next, ss, mvs) && ss[0] == s
    ensures ShopOf(ss[|mvs|]) == place.0 && ss[|mvs|].txs == s.txs && ss[|mvs|].w.clock == s.w.clock
  {
    assert s.txs - {t} == s.txs;
  }

  const AGAIN := Hold("m", "s", "c", 10, "")

  lemma SecondGrant(s: State)
    requires Shows(s, 10, map[1 := RETURNED], 2)
    ensures var st := PlaceOf(s, AGAIN).0;
            && st.db == s.w.db.(bookings := map[1 := RETURNED, 2 := NEXT])
            && st.nextId == 3
  {
    NothingToClear(s.w.db.bookings, "m", "s", "c", 10);
    PlaceGoesOn(s, AGAIN);
    assert map[1 := RETURNED][2 := NEXT] == map[1 := RETURNED, 2 := NEXT];
  }

  /** The early confirm takes its snapshot only now, and finds the new hold. */
  lemma ConfirmEarly(s: State) returns (ss: seq<State>, mvs: seq<Move>, s': State)
    requires s.txs == map[9 := Fresh(EARLY, Begun, 5, None, {})] && Shows(s, 10, map[1 := RETURNED, 2 := NEXT], 3)
    ensures IsPath(Next, ss, mvs) && ss[0] == s && ss[|mvs|] == s'
    ensures s'.w.db.bookings == map[1 := RETURNED, 2 := ConfirmedRow(NEXT, 5)]
  {
    var s1 := Snapped'(s, 9);
    SnapshotEnabled(s, 9);
    ConfirmEnabled(s1, 9, 2, "c");
    ConfirmIsCommitted(s1, 9, 2, "c");
    var s2 := RanConfirm(s1, 9, 2);
    CommitEnabled(s2, 9);
    s' := Committed(s2, 9);
    ThreeSteps(Next, s, TakeSnapshot(9), s1, RunConfirm(9), s2, Commit(9), s');
    ss, mvs := [s, s1, s2, s'], [TakeSnapshot(9), RunConfirm(9), Commit(9)];
    assert map[1 := RETURNED, 2 := NEXT][2 := ConfirmedRow(NEXT, 5)] == map[1 := RETURNED, 2 := ConfirmedRow(NEXT, 5)];
  }

  lemma SnapshotEnabled(s: State, t: nat)
    requires At(s, t, Begun) && !s.txs[t].op.Hold?
    ensures IsPath(Next, [s, Snapped'(s, t)], [TakeSnapshot(t)])
  {
    assert NextOther(s, TakeSnapshot(t), Snapped'(s, t));
  }

  /** Without the condition that confirms are sent after their holds were committed: booking 1 is sold
      over [0, 10) and booking 2 of the same seat from 5 on, by the stamps they store. */
  lemma StoredSalesCanOverlap() returns (ss: seq<State>, mvs: seq<Move>, s: State)
    ensures Runs.IsRun(ss, mvs) && ss[|mvs|] == s
    ensures 1 in s.w.db.bookings && 2 in s.w.db.bookings && A.SameSeat(s.w.db.bookings[1], s.w.db.bookings[2])
    ensures s.w.db.bookings[1].confirmedAt == Some(0) && s.w.db.bookings[1].cancelledAt == Some(10)
    ensures s.w.db.bookings[2].confirmedAt == Some(5) && s.w.db.bookings[2].status == Confirmed
    ensures !H.SoldBefore(s.w.db.bookings[1], s.w.db.bookings[2]) && !H.SoldBefore(s.w.db.bookings[2], s.w.db.bookings[1])
  {
    var ts, nvs;
    ss, mvs, s := FirstHold();
    ts, nvs, s := Sell(s);
    LeadsOn(ss, mvs, ts, nvs);
    ss, mvs := ss + ts[1..], mvs + nvs;
    ts, nvs, s := StartEarly(s);
    LeadsOn(ss, mvs, ts, nvs);
    ss, mvs := ss + ts[1..], mvs + nvs;
    ts, nvs, s := Return(s);
    LeadsOn(ss, mvs, ts, nvs);
    ss, mvs := ss + ts[1..], mvs + nvs;
    LeadsToInv(ss, mvs, s);
    ts, nvs, s := HoldAgain(s);
    LeadsOn(ss, mvs, ts, nvs);
    ss, mvs := ss + ts[1..], mvs + nvs;
    ts, nvs, s := ConfirmEarly(s);
    LeadsOn(ss, mvs, ts, nvs);
    ss, mvs := ss + ts[1..], mvs + nvs;
    PathIsRun(ss, mvs);
  }

  // ---------------------------------------------------------------- a free seat, refused

  const KEYED := Hold("m", "s", "b", 10, "k")
  const ASKING := Fresh(KEYED, LookedUp, 0, None, {})
  const DROPPED := CancelledRow(HELD, 0)

  /** Two requests with one key, a retry overtaking its original, both find the key unused. */
  lemma TwoLookups() returns (ss: seq<State>, mvs: seq<Move>, s: State)
    ensures Leads(ss, mvs, s) && s == START.(txs := map[1 := ASKING, 2 := ASKING])
  {
    var s1 := START.(txs := START.txs[1 := ASKING]);
    s := s1.(txs := s1.txs[2 := ASKING]);
    assert NextHold(START, LookupProceeds(1, KEYED, 0), s1);
    assert NextHold(s1, LookupProceeds(2, KEYED, 0), s);
    assert s.txs == map[1 := ASKING, 2 := ASKING];
    ss, mvs := [START, s1, s], [LookupProceeds(1, KEYED, 0), LookupProceeds(2, KEYED, 0)];
  }

  lemma FirstWins(s: State) returns (ss: seq<State>, mvs: seq<Move>, s': State)
    requires Inv(s) && s == START.(txs := map[1 := ASKING, 2 := ASKING])
    ensures IsPath(Next, ss, mvs) && ss[0] == s && ss[|mvs|] == s' && s'.txs == map[2 := ASKING] && s'.w.clock == 0
    ensures s'.w.db == START.w.db.(bookings := map[1 := HELD], keys := map["k" := Key(1, 0)]) && s'.nextId == 2
  {
    BothAsk(s);
    ss, mvs := HoldSucceeds(s, 1);
    s' := ss[|mvs|];
    KeyedGrant();
    assert map[1 := ASKING, 2 := ASKING] - {1} == map[2 := ASKING];
  }

  lemma BothAsk(s: State)
    requires s == START.(txs := map[1 := ASKING, 2 := ASKING])
    ensures HoldAt(s, 1, LookedUp) && s.txs[1] == ASKING && Idle(s.txs[1]) && QuietBut(s, 1)
    ensures ShopOf(s) == ShopOf(START) && s.w.clock == 0 && !Blocked(s.w.db.bookings, "m", "s", 0) && SeatExists(s.w.db, "m", "s")
    ensures "k" !in s.w.db.keys && s.nextId == 1
  {
  }

  lemma KeyedGrant()
    ensures Granted(ShopOf(START), 0, "m", "s", "b", 10, "k") ==
            Shop(START.w.db.(bookings := map[1 := HELD], keys := map["k" := Key(1, 0)]), 2, 1, 1)
  {
    NothingToClear(map[], "m", "s", "b", 0);
  }

  lemma FirstReleases(s: State) returns (ss: seq<State>, mvs: seq<Move>, s': State)
    requires s.txs == map[2 := ASKING] && s.w.clock == 0 && s.nextId == 2
    requires s.w.db == START.w.db.(bookings := map[1 := HELD], keys := map["k" := Key(1, 0)])
    ensures IsPath(Next, ss, mvs) && ss[0] == s && ss[|mvs|] == s' && s'.txs == map[2 := ASKING] && s'.w.clock == 0
    ensures s'.w.db == START.w.db.(bookings := map[1 := DROPPED], keys := map["k" := Key(1, 0)]) && s'.nextId == 2
  {
    ss, mvs := LoneStatementIsAPath(s, 3, Release(1, "b"));
    s' := ss[|mvs|];
    assert map[1 := HELD][1 := DROPPED] == map[1 := DROPPED];
  }

  lemma KeyRejectEnabled(s: State, t: nat)
    requires HoldAt(s, t, Inserted) && QuietBut(s, t) && s.txs[t].op.key in s.w.db.keys && s.txs[t].op.key !in s.txs[t].dels
    ensures IsPath(Next, [s, s.(txs := s.txs[t := Failed'(s.txs[t])])], [RejectKey(t)])
  {
    assert NextHold(s, RejectKey(t), s.(txs := s.txs[t := Failed'(s.txs[t])]));
  }

  /** The retry gets its row, trips over the key, and is refused. */
  lemma SecondIsRefused(s: State) returns (ss: seq<State>, mvs: seq<Move>)
    requires s.txs == map[2 := ASKING] && s.w.clock == 0 && s.nextId == 2
    requires s.w.db == START.w.db.(bookings := map[1 := DROPPED], keys := map["k" := Key(1, 0)])
    ensures IsPath(Next, ss, mvs) && ss[0] == s && |mvs| > 0 && mvs[|mvs| - 1] == RecoveryRefuses(2, 0)
    ensures ss[|mvs| - 1].w == s.w && 2 in ss[|mvs| - 1].txs && ss[|mvs| - 1].txs[2].op == KEYED
  {
    ss, mvs := Inserts(s, 2);
    var p := ss[|mvs|];
    KeyRejectEnabled(p, 2);
    var p1 := p.(txs := p.txs[2 := Failed'(p.txs[2])]);
    Extend(Next, ss, mvs, RejectKey(2), p1);
    ss, mvs := ss + [p1], mvs + [RejectKey(2)];
    RefusalEnabled(p1, 2);
    Extend(Next, ss, mvs, RecoveryRefuses(2, 0), p1.(txs := p1.txs - {2}));
    ss, mvs := ss + [p1.(txs := p1.txs - {2})], mvs + [RecoveryRefuses(2, 0)];
  }

  /** A keyed retry can be told "seat unavailable" while nobody has the seat, and while its key's
      recorded booking matches it and is dead, the case documented to proceed as a fresh attempt. */
  lemma FreeSeatCanBeRefused() returns (ss: seq<State>, mvs: seq<Move>, k: nat)
    ensures Runs.IsRun(ss, mvs) && k < |mvs| && mvs[k].RecoveryRefuses? && mvs[k].t in ss[k].txs
    ensures var o, w := ss[k].txs[mvs[k].t].op, ss[k].w;
            && o.Hold? && o.key in w.db.keys && SeatExists(w.db, o.m, o.s) && !SeatTaken(w.db.bookings, o.m, o.s)
            && w.db.keys[o.key].bookingId in w.db.bookings
            && SameParams(w.db.bookings[w.db.keys[o.key].bookingId], o.m, o.s, o.b)
            && !Live(w.db.bookings[w.db.keys[o.key].bookingId], w.clock)
  {
    var s, ts, nvs;
    ss, mvs, s := TwoLookups();
    LeadsToInv(ss, mvs, s);
    ts, nvs, s := FirstWins(s);
    LeadsOn(ss, mvs, ts, nvs);
    ss, mvs := ss + ts[1..], mvs + nvs;
    ts, nvs, s := FirstReleases(s);
    LeadsOn(ss, mvs, ts, nvs);
    ss, mvs := ss + ts[1..], mvs + nvs;
    ts, nvs := SecondIsRefused(s);
    LeadsOn(ss, mvs, ts, nvs);
    k := |mvs + nvs| - 1;
    assert (ss + ts[1..])[k] == ts[|nvs| - 1] && (mvs + nvs)[k] == nvs[|nvs| - 1];
    ss, mvs := ss + ts[1..], mvs + nvs;
    PathIsRun(ss, mvs);
  }

  // ---------------------------------------------------------------- a sweep that a confirm can tell

  const CONFIRM := Confirm(1, "b")

  /** A confirm draws its `now()` at 0; then the clock passes the hold's expiry. */
  lemma ConfirmLags(s: State) returns (ss: seq<State>, mvs: seq<Move>, s': State)
    requires s.txs == map[] && s.w.clock == 0 && s.w.db.bookings == map[1 := HELD]
    ensures IsPath(Next, ss, mvs) && ss[0] == s && ss[|mvs|] == s'
    ensures StartStatement(2, CONFIRM) in mvs
    ensures s'.txs == map[2 := Fresh(CONFIRM, Begun, 0, None, {})] && s'.w.clock == 11 && s'.w.db.bookings == map[1 := HELD]
  {
    var s1 := Begun'(s, 2, CONFIRM);
    s' := s1.(w := s1.w.(clock := 11));
    StartEnabled(s, 2, CONFIRM);
    TickEnabled(s1, 11);
    Extend(Next, [s, s1], [StartStatement(2, CONFIRM)], Tick(11), s');
    ss, mvs := [s, s1] + [s'], [StartStatement(2, CONFIRM)] + [Tick(11)];
    assert mvs[0] == StartStatement(2, CONFIRM);
    assert s1.txs == map[2 := Fresh(CONFIRM, Begun, 0, None, {})];
  }

  lemma LateConfirmCommits(s: State) returns (ss: seq<State>, s': State)
    requires s.txs == map[2 := Fresh(CONFIRM, Begun, 0, None, {})] && s.w.clock == 11 && s.w.db.bookings == map[1 := HELD]
    ensures IsPath(Next, ss, [TakeSnapshot(2), RunConfirm(2), Commit(2)]) && ss[0] == s && ss[3] == s'
    ensures 1 in s'.w.db.bookings && s'.w.db.bookings[1].status == Confirmed
  {
    var s1 := Snapped'(s, 2);
    SnapshotEnabled(s, 2);
    ConfirmEnabled(s1, 2, 1, "b");
    ConfirmIsCommitted(s1, 2, 1, "b");
    var s2 := RanConfirm(s1, 2, 1);
    CommitEnabled(s2, 2);
    s' := Committed(s2, 2);
    ThreeSteps(Next, s, TakeSnapshot(2), s1, RunConfirm(2), s2, Commit(2), s');
    ss := [s, s1, s2, s'];
  }

  const SWEEP := [StartStatement(3, Sweep), TakeSnapshot(3), RunSweep(3, {1}), Commit(3)]

  lemma SweepEnabled(s: State, s': State)
    requires At(s, 3, Snapped) && s.txs[3].op.Sweep? && 1 in s.txs[3].seen && QuietBut(s, 3)
    requires 1 in s.w.db.bookings && s.w.db.bookings[1].status == Held && PastTtl(s.w.db.bookings[1], s.txs[3].ts)
    requires s' == s.(txs := s.txs[3 := s.txs[3].(pc := Ready, rows := map[1 := ExpiredRow(s.w.db.bookings[1])])])
    ensures IsPath(Next, [s, s'], [RunSweep(3, {1})])
  {
    assert SweptRows(s.w.db.bookings, {1}) == map[1 := ExpiredRow(s.w.db.bookings[1])];
    assert NextOther(s, RunSweep(3, {1}), s');
  }

  lemma SweepRuns(s: State) returns (ss: seq<State>, s': State)
    requires s.txs == map[2 := Fresh(CONFIRM, Begun, 0, None, {})] && s.w.clock == 11 && s.w.db.bookings == map[1 := HELD]
    ensures IsPath(Next, ss, SWEEP) && ss[0] == s && ss[4] == s'
    ensures s'.txs == s.txs && s'.w.clock == 11 && s'.w.db.bookings == map[1 := ExpiredRow(HELD)]
  {
    var s1 := Begun'(s, 3, Sweep);
    var s2 := Snapped'(s1, 3);
    StartEnabled(s, 3, Sweep);
    SnapshotEnabled(s1, 3);
    var x := s2.txs[3].(pc := Ready, rows := map[1 := ExpiredRow(HELD)]);
    var s3 := s2.(txs := s2.txs[3 := x]);
    SweepEnabled(s2, s3);
    ThreeSteps(Next, s, StartStatement(3, Sweep), s1, TakeSnapshot(3), s2, RunSweep(3, {1}), s3);
    CommitEnabled(s3, 3);
    s' := Committed(s3, 3);
    var us, ovs := [s, s1, s2, s3], [StartStatement(3, Sweep), TakeSnapshot(3), RunSweep(3, {1})];
    Extend(Next, us, ovs, Commit(3), s');
    ss := us + [s'];
    assert ovs + [Commit(3)] == SWEEP;
    RowIsCommitted(s2, 3, x, 1, ExpiredRow(HELD));
    assert map[1 := HELD][1 := ExpiredRow(HELD)] == map[1 := ExpiredRow(HELD)];
    assert s2.txs - {3} == s.txs;
  }

  lemma LateConfirmIsRefused(s: State) returns (ss: seq<State>)
    requires s.txs == map[2 := Fresh(CONFIRM, Begun, 0, None, {})] && s.w.clock == 11 && s.w.db.bookings == map[1 := ExpiredRow(HELD)]
    ensures IsPath(Next, ss, [TakeSnapshot(2), FindNothing(2)]) && ss[0] == s
  {
    var s1 := Snapped'(s, 2);
    SnapshotEnabled(s, 2);
    NothingEnabled(s1, 2);
    Extend(Next, [s, s1], [TakeSnapshot(2)], FindNothing(2), s1.(txs := s1.txs - {2}));
    ss := [s, s1] + [s1.(txs := s1.txs - {2})];
    assert [TakeSnapshot(2)] + [FindNothing(2)] == [TakeSnapshot(2), FindNothing(2)];
  }

  /** Two runs that differ in one sweep, at a time when the hold it takes is over: without it a confirm that
      drew its `now()` before commits, with it the same confirm is refused. */
  lemma SweepCanBeTold() returns (ss: seq<State>, ts: seq<State>, before: seq<Move>)
    ensures Runs.IsRun(ss, before + [TakeSnapshot(2), RunConfirm(2), Commit(2)])
    ensures Runs.IsRun(ts, before + (SWEEP + [TakeSnapshot(2), FindNothing(2)]))
    ensures |ss| > |before| && |ts| > |before| && ss[..|before| + 1] == ts[..|before| + 1]
    ensures StartStatement(2, CONFIRM) in before && 1 in ss[|ss| - 1].w.db.bookings && ss[|ss| - 1].w.db.bookings[1].status == Confirmed
  {
    var us, s, vs, nvs, s';
    us, before, s := FirstHold();
    vs, nvs, s := ConfirmLags(s);
    LeadsOn(us, before, vs, nvs);
    us, before := us + vs[1..], before + nvs;
    vs, s' := LateConfirmCommits(s);
    var confirmed := s';
    LeadsOn(us, before, vs, [TakeSnapshot(2), RunConfirm(2), Commit(2)]);
    ss := us + vs[1..];
    PathIsRun(ss, before + [TakeSnapshot(2), RunConfirm(2), Commit(2)]);
    vs, s' := SweepRuns(s);
    var rs := LateConfirmIsRefused(s');
    Chain(Next, vs, SWEEP, rs, [TakeSnapshot(2), FindNothing(2)]);
    LeadsOn(us, before, vs + rs[1..], SWEEP + [TakeSnapshot(2), FindNothing(2)]);
    ts := us + (vs + rs[1..])[1..];
    PathIsRun(ts, before + (SWEEP + [TakeSnapshot(2), FindNothing(2)]));
    assert ss[..|before| + 1] == us && ts[..|before| + 1] == us;
    assert ss[|ss| - 1] == confirmed;
  }
}
