/**
 Whole runs at statement granularity: any number of transactions, interleaved in any way, with
 aborts anywhere. The committed states of such a run form a run of the atomic machine, so every
 theorem about atomic runs holds of it.
 */
module Runs {
  import opened Options
  import opened Tables
  import opened Interleaving
  import opened Reads
  import A = Atomic
  import H = History
  import C = Conservation
  import R = Refinement

  ghost predicate IsRun(ss: seq<State>, mvs: seq<Move>) {
    && |ss| == |mvs| + 1
    && Init(ss[0])
    && forall k :: 0 <= k < |mvs| ==> Next(ss[k], mvs[k], ss[k + 1])
  }

  /** The committed states of a run. */
  ghost function Worlds(ss: seq<State>): (ws: seq<A.World>)
    ensures |ws| == |ss| && forall k :: 0 <= k < |ss| ==> ws[k] == ss[k].w
  {
    seq(|ss|, k requires 0 <= k < |ss| => ss[k].w)
  }

  /** The answers and commits of a run. */
  ghost function Labels(ss: seq<State>, mvs: seq<Move>): (ls: seq<A.Label>)
    requires IsRun(ss, mvs)
    ensures |ls| == |mvs|
    ensures forall k :: 0 <= k < |mvs| ==> ls[k] == LabelOf(ss[k], mvs[k], ss[k + 1])
  {
    seq(|mvs|, k requires 0 <= k < |mvs| => LabelOf(ss[k], mvs[k], ss[k + 1]))
  }

  lemma {:induction false} RunKeepsInv(ss: seq<State>, mvs: seq<Move>, k: nat)
    requires IsRun(ss, mvs) && k < |ss|
    ensures Inv(ss[k])
  {
    if k > 0 {
      RunKeepsInv(ss, mvs, k - 1);
      R.MoveKeepsInv(ss[k - 1], mvs[k - 1], ss[k]);
    }
  }

  // ---------------------------------------------------------------- the cause of a refusal

  lemma HoldMoveTracks(s: State, mv: Move, s': State, t: nat)
    requires NextHold(s, mv, s') && t in s'.txs && s'.txs[t].op.Hold? && s'.txs[t].pc == Rejected
    ensures t in s.txs && s.txs[t].op.Hold?
    ensures s'.txs[t] == s.txs[t] || ((mv == RejectRow(t) || mv == RejectKey(t)) && s'.txs[t] == Failed'(s.txs[t]))
  {
  }

  lemma OtherMoveTracks(s: State, mv: Move, s': State, t: nat)
    requires NextOther(s, mv, s') && t in s'.txs && s'.txs[t].op.Hold?
    ensures t in s.txs && s'.txs[t] == s.txs[t]
  {
  }

  /** A rejected transaction was rejected before this move, or is by it. */
  ghost predicate Tracks(s: State, mv: Move, s': State, t: nat) {
    HoldAt(s', t, Rejected) ==>
      && t in s.txs && s.txs[t].op.Hold?
      && (s'.txs[t] == s.txs[t] || ((mv == RejectRow(t) || mv == RejectKey(t)) && s'.txs[t] == Failed'(s.txs[t])))
  }

  lemma MoveTracks(s: State, mv: Move, s': State, t: nat)
    requires Next(s, mv, s')
    ensures Tracks(s, mv, s', t)
  {
    if HoldAt(s', t, Rejected) {
      if NextHold(s, mv, s') {
        HoldMoveTracks(s, mv, s', t);
      } else {
        OtherMoveTracks(s, mv, s', t);
      }
    }
  }

  /** Transaction `t` was rejected at move `j` and has been waiting for its answer up to state `k`. */
  ghost predicate RejectedSince(ss: seq<State>, mvs: seq<Move>, j: nat, k: nat, t: nat)
    requires |ss| == |mvs| + 1
  {
    && j < k < |ss| && (mvs[j] == RejectRow(t) || mvs[j] == RejectKey(t))
    && t in ss[j].txs && t in ss[k].txs && ss[k].txs[t] == Failed'(ss[j].txs[t])
    && forall n :: j < n <= k ==> t in ss[n].txs
  }

  lemma {:induction false} RejectionIn(ss: seq<State>, mvs: seq<Move>, k: nat, t: nat) returns (j: nat)
    requires |ss| == |mvs| + 1 && ss[0].txs == map[] && forall n :: 0 <= n < |mvs| ==> Tracks(ss[n], mvs[n], ss[n + 1], t)
    requires k < |ss| && HoldAt(ss[k], t, Rejected)
    ensures RejectedSince(ss, mvs, j, k, t)
  {
    assert k > 0;
    assert Tracks(ss[k - 1], mvs[k - 1], ss[k], t);
    if ss[k].txs[t] == ss[k - 1].txs[t] {
      j := RejectionIn(ss, mvs, k - 1, t);
    } else {
      j := k - 1;
    }
  }

  lemma RejectionOf(ss: seq<State>, mvs: seq<Move>, k: nat, t: nat) returns (j: nat)
    requires IsRun(ss, mvs) && k < |ss| && HoldAt(ss[k], t, Rejected)
    ensures RejectedSince(ss, mvs, j, k, t)
  {
    forall n | 0 <= n < |mvs| ensures Tracks(ss[n], mvs[n], ss[n + 1], t) {
      MoveTracks(ss[n], mvs[n], ss[n + 1], t);
    }
    j := RejectionIn(ss, mvs, k, t);
  }

  lemma HoldMoveKeepsLookup(s: State, mv: Move, s': State, t: nat)
    requires NextHold(s, mv, s') && t in s'.txs && s'.txs[t].op.Hold?
    ensures || (t in s.txs && s.txs[t].op == s'.txs[t].op && s.txs[t].stale == s'.txs[t].stale)
            || (mv.LookupProceeds? && mv.t == t && mv.op == s'.txs[t].op && s'.txs[t].stale == StaleMapping(s.w, s'.txs[t].op))
  {
  }

  /** The move at which a hold transaction looked its key up, and what it found. */
  lemma {:induction false} LookupOf(ss: seq<State>, mvs: seq<Move>, k: nat, t: nat) returns (i: nat)
    requires IsRun(ss, mvs) && k < |ss| && t in ss[k].txs && ss[k].txs[t].op.Hold?
    ensures i < k && mvs[i].LookupProceeds? && mvs[i].t == t && mvs[i].op == ss[k].txs[t].op
    ensures ss[k].txs[t].stale == StaleMapping(ss[i].w, ss[k].txs[t].op)
  {
    var s, mv, s' := ss[k - 1], mvs[k - 1], ss[k];
    assert Next(s, mv, s');
    if NextHold(s, mv, s') {
      HoldMoveKeepsLookup(s, mv, s', t);
    } else {
      OtherMoveTracks(s, mv, s', t);
    }
    if t in s.txs && s.txs[t].op == s'.txs[t].op && s.txs[t].stale == s'.txs[t].stale {
      i := LookupOf(ss, mvs, k - 1, t);
    } else {
      i := k - 1;
    }
  }

  lemma RefusalIsRejected(s: State, mv: Move, s': State)
    requires Next(s, mv, s') && mv.RecoveryRefuses?
    ensures HoldAt(s, mv.t, Rejected) && mv.t !in s'.txs
  {
  }

  lemma RefusalAnswers(s: State, mv: Move, s': State)
    requires Next(s, mv, s') && LabelOf(s, mv, s').SeatRefused?
    ensures mv.RecoveryRefuses? && HoldAt(s, mv.t, Rejected) && LabelOf(s, mv, s') == Refused(mv.t, s.txs[mv.t], mv.at) && mv.t !in s'.txs
  {
  }

  lemma RejectionAnswers(s: State, mv: Move, s': State, t: nat)
    requires Next(s, mv, s') && (mv == RejectRow(t) || mv == RejectKey(t))
    ensures t in s.txs && s.txs[t].op.Hold?
    ensures LabelOf(s, mv, s') == if mv == RejectRow(t) then RejectedRow(t, s.txs[t]) else RejectedKey(t, s.txs[t])
  {
  }

  lemma RejectionFinds(s: State, mv: Move, s': State, t: nat)
    requires Inv(s) && Next(s, mv, s') && (mv == RejectRow(t) || mv == RejectKey(t))
    ensures t in s.txs && s.txs[t].op.Hold?
    ensures mv == RejectRow(t) <==> R.OccupiedFor(s.w.db.bookings, s.txs[t])
    ensures mv == RejectKey(t) ==> A.KeyMoved(s.w, s.txs[t].op.key, s.txs[t].stale)
  {
    RejectionAnswers(s, mv, s', t);
    if mv == RejectRow(t) {
      assert R.OccupiedFor(s.w.db.bookings, s.txs[t]) by {
        R.RejectionIsAtomic(s, t, s');
      }
    } else {
      assert !R.OccupiedFor(s.w.db.bookings, s.txs[t]) && A.KeyMoved(s.w, s.txs[t].op.key, s.txs[t].stale) by {
        R.KeyRejectionIsAtomic(s, t, s');
      }
    }
  }

  /** Every hold answered "seat unavailable" was rejected at an earlier move `j` of its own, and looked
      its key up at a move `i` before that. At `j` the seat was not to be had iff the row was what was
      rejected; otherwise the seat was free, and the key named another booking than at `i`. */
  lemma RefusedHoldsHaveACause(ss: seq<State>, mvs: seq<Move>, k: nat) returns (i: nat, j: nat)
    requires IsRun(ss, mvs) && k < |mvs| && mvs[k].RecoveryRefuses?
    ensures var t := mvs[k].t;
            && i < j < k && t in ss[j].txs && ss[j].txs[t].op.Hold? && t in ss[k].txs
            && ss[k].txs[t] == Failed'(ss[j].txs[t])
            && mvs[i].LookupProceeds? && mvs[i].t == t && mvs[i].op == ss[j].txs[t].op
            && (mvs[j] == RejectRow(t) || mvs[j] == RejectKey(t))
            && (mvs[j] == RejectRow(t) <==> R.OccupiedFor(ss[j].w.db.bookings, ss[j].txs[t]))
            && (mvs[j] == RejectKey(t) ==>
                  A.KeyMoved(ss[j].w, ss[j].txs[t].op.key, StaleMapping(ss[i].w, ss[j].txs[t].op)))
  {
    var t := mvs[k].t;
    RefusalIsRejected(ss[k], mvs[k], ss[k + 1]);
    j := RejectionOf(ss, mvs, k, t);
    i := LookupOf(ss, mvs, j, t);
    RunKeepsInv(ss, mvs, j);
    RejectionFinds(ss[j], mvs[j], ss[j + 1], t);
  }

  /** When the key of an inserted hold is judged, it is rejected iff it names another booking than at the
      request's own lookup, at move `i`. */
  lemma KeyRejectedIff(ss: seq<State>, mvs: seq<Move>, k: nat, t: nat) returns (i: nat)
    requires IsRun(ss, mvs) && k < |ss| && HoldAt(ss[k], t, Inserted) && KeyFree(ss[k], t, ss[k].txs[t].op.key)
    ensures i < k && mvs[i].LookupProceeds? && mvs[i].t == t && mvs[i].op == ss[k].txs[t].op
    ensures (exists s' :: Next(ss[k], RejectKey(t), s')) <==>
            A.KeyMoved(ss[k].w, ss[k].txs[t].op.key, StaleMapping(ss[i].w, ss[k].txs[t].op))
  {
    i := LookupOf(ss, mvs, k, t);
    RunKeepsInv(ss, mvs, k);
    R.KeyRejectedIff(ss[k], t);
  }

  /** In the labels of a run, a refusal answers a rejection of the same request, and the only one. */
  lemma RefusalIsJustified(ss: seq<State>, mvs: seq<Move>, k: nat) returns (j: nat)
    requires IsRun(ss, mvs) && k < |mvs| && Labels(ss, mvs)[k].SeatRefused?
    ensures H.RefusedFor(Labels(ss, mvs), j, k)
  {
    var ls := Labels(ss, mvs);
    RefusalAnswers(ss[k], mvs[k], ss[k + 1]);
    var t := mvs[k].t;
    j := RejectionOf(ss, mvs, k, t);
    RejectionAnswers(ss[j], mvs[j], ss[j + 1], t);
    forall q | j < q < k && ls[q].SeatRefused? ensures ls[q].t != t {
      RefusalAnswers(ss[q], mvs[q], ss[q + 1]);
      assert t in ss[q + 1].txs;
    }
  }

  /** Every interleaving of hold, confirm, release, cancel, sweep and prune transactions refines the
      atomic machine. */
  lemma InterleavingsRefine(ss: seq<State>, mvs: seq<Move>)
    requires IsRun(ss, mvs)
    ensures H.IsRun(Worlds(ss), Labels(ss, mvs))
  {
    var ws, ls := Worlds(ss), Labels(ss, mvs);
    forall k | 0 <= k < |ls| ensures A.Step(ws[k], ls[k], ws[k + 1]) {
      RunKeepsInv(ss, mvs, k);
      R.MoveRefines(ss[k], mvs[k], ss[k + 1]);
    }
    assert H.Justified(ls) by {
      forall k | 0 <= k < |ls| && ls[k].SeatRefused? ensures exists p :: H.RefusedFor(ls, p, k) {
        var j := RefusalIsJustified(ss, mvs, k);
      }
    }
  }

  /** Nothing but a commit (or a clock tick, or a worker statement) changes the committed state. */
  lemma OnlyCommitsCount(s: State, mv: Move, s': State)
    requires Next(s, mv, s') && !mv.Commit? && !mv.Tick? && !mv.WorkerWrites?
    ensures s'.w == s.w
  {
    if NextHold(s, mv, s') {
      R.HoldMovesArePrivate(s, mv, s');
    }
  }

  /** A hold commits as: cancel the buyer's other holds, expire the stale hold on the target, insert one
      hold, and (for a keyed request) move the key to it; all on the state its commit finds. */
  lemma HoldActsAtCommit(ss: seq<State>, mvs: seq<Move>, k: nat)
    requires IsRun(ss, mvs) && k < |mvs| && mvs[k].Commit? && mvs[k].t in ss[k].txs && ss[k].txs[mvs[k].t].op.Hold?
    ensures var x := ss[k].txs[mvs[k].t]; var db, db' := ss[k].w.db, ss[k + 1].w.db; var o := x.op;
            var cleared := Cleared(db.bookings, o.m, o.s, o.b, x.ts);
            && x.id !in db.bookings && !SeatTaken(cleared, o.m, o.s)
            && db'.bookings == cleared[x.id := HeldRow(o.m, o.s, o.b, x.ts, o.ttl)]
            && db'.keys == if o.key == "" then db.keys else WithoutStale(db.keys, o.key, x.stale)[o.key := Key(x.id, x.ts)]
  {
    RunKeepsInv(ss, mvs, k);
    assert Next(ss[k], mvs[k], ss[k + 1]);
    R.HoldCommits(ss[k], mvs[k].t);
  }

  /** In every committed state of every interleaving: one active row per seat, one hold per buyer and
      match, and refunds and events that account for every cancelled sale. */
  lemma CommittedStatesAreSound(ss: seq<State>, mvs: seq<Move>, k: nat)
    requires IsRun(ss, mvs) && k < |ss|
    ensures SeatUnique(ss[k].w.db.bookings) && BuyerUnique(ss[k].w.db.bookings)
    ensures C.Books(ss[k].w.db)
  {
    RunKeepsInv(ss, mvs, k);
    InterleavingsRefine(ss, mvs);
    C.RunKeepsBooks(Worlds(ss), Labels(ss, mvs), k);
  }

  lemma ReadAnswers(s: State, mv: Move, s': State)
    requires Next(s, mv, s')
    ensures mv.ReadSeats? ==> LabelOf(s, mv, s') == A.SeatsRead(mv.at, mv.m, SeatMap(s.w.db, mv.at, mv.m))
    ensures mv.ReadHistory? ==> LabelOf(s, mv, s') == A.HistoryRead(mv.m, mv.b, HistoryOf(s.w.db, mv.m, mv.b))
  {
  }

  lemma SeatMapsAreAsPromised(ss: seq<State>, mvs: seq<Move>, k: nat, now: Time, m: string)
    requires IsRun(ss, mvs) && k < |ss|
    ensures IsSeatMap(SeatMap(ss[k].w.db, now, m), ss[k].w.db, now, m)
  {
    CommittedStatesAreSound(ss, mvs, k);
    SeatMapIff(ss[k].w.db, now, m, SeatMap(ss[k].w.db, now, m));
  }

  lemma HistoriesAreAsPromised(ss: seq<State>, mvs: seq<Move>, k: nat, m: string, b: string)
    requires IsRun(ss, mvs) && k < |ss|
    ensures C.IsHistory(HistoryOf(ss[k].w.db, m, b), Worlds(ss), k, m, b)
  {
    InterleavingsRefine(ss, mvs);
    C.HistoryIff(Worlds(ss), Labels(ss, mvs), k, m, b, HistoryOf(ss[k].w.db, m, b));
  }

  /** Every seat map that an interleaving answers is the one promised for the committed state it reads, and
      every booking history lists exactly the buyer's bookings that were ever confirmed, as they are. */
  lemma ReadsAreAsPromised(ss: seq<State>, mvs: seq<Move>, k: nat)
    requires IsRun(ss, mvs) && k < |mvs|
    ensures var l := Labels(ss, mvs)[k];
            && (mvs[k].ReadSeats? ==> l.SeatsRead? && l.m == mvs[k].m && l.at == mvs[k].at && IsSeatMap(l.lines, ss[k].w.db, l.at, l.m))
            && (mvs[k].ReadHistory? ==> l.HistoryRead? && l.m == mvs[k].m && l.b == mvs[k].b
                                        && C.IsHistory(l.sales, Worlds(ss), k, l.m, l.b))
  {
    assert Next(ss[k], mvs[k], ss[k + 1]);
    ReadAnswers(ss[k], mvs[k], ss[k + 1]);
    if mvs[k].ReadSeats? {
      SeatMapsAreAsPromised(ss, mvs, k, mvs[k].at, mvs[k].m);
    } else if mvs[k].ReadHistory? {
      HistoriesAreAsPromised(ss, mvs, k, mvs[k].m, mvs[k].b);
    }
  }

  /** The seats that the oversell query counts (invariants.go:66-77). */
  ghost predicate Oversold(bs: map<Id, Booking>, m: string, s: string) {
    exists i, j :: i in bs && j in bs && i != j
      && bs[i].status == Confirmed && ActiveAt(bs[i], m, s) && bs[j].status == Confirmed && ActiveAt(bs[j], m, s)
  }

  lemma NoSeatIsOversold(ss: seq<State>, mvs: seq<Move>, k: nat, m: string, s: string)
    requires IsRun(ss, mvs) && k < |ss|
    ensures !Oversold(ss[k].w.db.bookings, m, s)
  {
    RunKeepsInv(ss, mvs, k);
  }

  /** A seat is sold to one booking at a time in every interleaving: of two bookings of it, one is done
      being confirmed before the other exists. */
  lemma SalesAlternate(ss: seq<State>, mvs: seq<Move>, k: nat, i: Id, j: Id)
    requires IsRun(ss, mvs) && k < |ss| && i != j
    requires i in ss[k].w.db.bookings && j in ss[k].w.db.bookings
    requires A.SameSeat(ss[k].w.db.bookings[i], ss[k].w.db.bookings[j])
    ensures H.SoldOutBefore(Worlds(ss), i, j) || H.SoldOutBefore(Worlds(ss), j, i)
  {
    InterleavingsRefine(ss, mvs);
    H.SalesAlternate(Worlds(ss), Labels(ss, mvs), k, i, j);
  }

  /** Confirms are sent for holds that were committed before. */
  ghost predicate ConfirmsSentAfterHolds(ss: seq<State>, mvs: seq<Move>)
    requires |ss| == |mvs| + 1
  {
    forall k :: 0 <= k < |mvs| && mvs[k].StartStatement? && mvs[k].op.Confirm? ==> mvs[k].op.id in ss[k].w.db.bookings
  }

  lemma ConfirmFollowsHold(ss: seq<State>, mvs: seq<Move>, k: nat)
    requires IsRun(ss, mvs) && ConfirmsSentAfterHolds(ss, mvs) && k < |mvs| && Labels(ss, mvs)[k].ConfirmCommitted?
    ensures var l := Labels(ss, mvs)[k]; l.id in ss[k].w.births && ss[k].w.births[l.id].at <= l.ts
  {
    ConfirmAnswers(ss[k], mvs[k], ss[k + 1]);
    var t := mvs[k].t;
    var j := StatementStarted(ss, mvs, k, t);
    var id := ss[k].txs[t].op.id;
    BornByThen(ss, mvs, j, id);
    InterleavingsRefine(ss, mvs);
    H.BirthsStay(Worlds(ss), Labels(ss, mvs), j, k, id);
  }

  lemma ConfirmAnswers(s: State, mv: Move, s': State)
    requires Next(s, mv, s') && LabelOf(s, mv, s').ConfirmCommitted?
    ensures mv.Commit? && mv.t in s.txs && s.txs[mv.t].op.Confirm?
    ensures LabelOf(s, mv, s') == A.ConfirmCommitted(s.txs[mv.t].ts, s.txs[mv.t].op.id, s.txs[mv.t].op.b)
  {
  }

  lemma BornByThen(ss: seq<State>, mvs: seq<Move>, j: nat, id: Id)
    requires IsRun(ss, mvs) && j < |ss| && id in ss[j].w.db.bookings
    ensures id in ss[j].w.births && ss[j].w.births[id].at <= ss[j].w.clock
  {
    RunKeepsInv(ss, mvs, j);
    assert A.StampsOk(ss[j].w.db.bookings[id], ss[j].w.births[id].at, ss[j].w.clock);
  }

  /** When confirms are sent after their holds were committed, the stored sale intervals of one seat are
      disjoint in every interleaving. */
  lemma SalesAreDisjoint(ss: seq<State>, mvs: seq<Move>, k: nat, i: Id, j: Id)
    requires IsRun(ss, mvs) && ConfirmsSentAfterHolds(ss, mvs) && k < |ss|
    requires i in ss[k].w.db.bookings && j in ss[k].w.db.bookings && i != j
    requires A.SameSeat(ss[k].w.db.bookings[i], ss[k].w.db.bookings[j])
    requires ss[k].w.db.bookings[i].confirmedAt.Some? && ss[k].w.db.bookings[j].confirmedAt.Some?
    ensures var r, q := ss[k].w.db.bookings[i], ss[k].w.db.bookings[j]; H.SoldBefore(r, q) || H.SoldBefore(q, r)
  {
    InterleavingsRefine(ss, mvs);
    forall n | 0 <= n < |mvs| && Labels(ss, mvs)[n].ConfirmCommitted?
      ensures Labels(ss, mvs)[n].id in ss[n].w.births && ss[n].w.births[Labels(ss, mvs)[n].id].at <= Labels(ss, mvs)[n].ts
    {
      ConfirmFollowsHold(ss, mvs, n);
    }
    H.SalesAreDisjoint(Worlds(ss), Labels(ss, mvs), k, i, j);
  }

  predicate NoPruning(mvs: seq<Move>) {
    forall k :: 0 <= k < |mvs| ==> !mvs[k].RunPrune?
  }

  ghost predicate PruneIdle(s: State) {
    forall t :: t in s.txs && s.txs[t].op.Prune? ==> s.txs[t].pc != Ready
  }

  /** The hold path never starts a prune. */
  lemma HoldMoveStartsNoPrune(s: State, mv: Move, s': State, t: nat)
    requires NextHold(s, mv, s') && t in s'.txs && s'.txs[t].op.Prune?
    ensures t in s.txs && s'.txs[t] == s.txs[t]
  {
  }

  lemma HoldMoveKeepsPruneIdle(s: State, mv: Move, s': State)
    requires NextHold(s, mv, s') && PruneIdle(s)
    ensures PruneIdle(s')
  {
    forall t | t in s'.txs && s'.txs[t].op.Prune? ensures s'.txs[t].pc != Ready {
      HoldMoveStartsNoPrune(s, mv, s', t);
    }
  }

  lemma OtherMoveKeepsPruneIdle(s: State, mv: Move, s': State)
    requires NextOther(s, mv, s') && !mv.RunPrune? && PruneIdle(s)
    ensures PruneIdle(s')
  {
  }

  lemma {:induction false} PruneStaysIdle(ss: seq<State>, mvs: seq<Move>, k: nat)
    requires IsRun(ss, mvs) && NoPruning(mvs) && k < |ss|
    ensures PruneIdle(ss[k])
  {
    if k > 0 {
      PruneStaysIdle(ss, mvs, k - 1);
      assert Next(ss[k - 1], mvs[k - 1], ss[k]) && !mvs[k - 1].RunPrune?;
      if NextHold(ss[k - 1], mvs[k - 1], ss[k]) {
        HoldMoveKeepsPruneIdle(ss[k - 1], mvs[k - 1], ss[k]);
      } else {
        OtherMoveKeepsPruneIdle(ss[k - 1], mvs[k - 1], ss[k]);
      }
    }
  }

  lemma IdlePruneCommitsNothing(s: State, mv: Move, s': State)
    requires Next(s, mv, s') && PruneIdle(s)
    ensures !LabelOf(s, mv, s').PruneCommitted?
  {
    if mv.Commit? {
      CommitApplies(s, mv.t, s');
    } else {
      OnlyCommitsPrune(s, mv, s');
    }
  }

  lemma OnlyCommitsPrune(s: State, mv: Move, s': State)
    requires Next(s, mv, s') && !mv.Commit?
    ensures !LabelOf(s, mv, s').PruneCommitted?
  {
  }

  lemma NoPruneLabels(ss: seq<State>, mvs: seq<Move>)
    requires IsRun(ss, mvs) && NoPruning(mvs)
    ensures H.NoPrune(Labels(ss, mvs))
  {
    forall k | 0 <= k < |mvs| ensures !Labels(ss, mvs)[k].PruneCommitted? {
      PruneStaysIdle(ss, mvs, k);
      IdlePruneCommitsNothing(ss[k], mvs[k], ss[k + 1]);
    }
  }

  /** Same-key retries in any interleaving without pruning: all successes under a key were for one
      request, and while the booking of an earlier success is held or confirmed every later success
      returns it, whether fresh, from the fast path or from either unique-violation recovery. */
  lemma RetriesAgree(ss: seq<State>, mvs: seq<Move>, n: nat, p: nat, key: string,
                     m: string, s: string, b: string, id: Id, m': string, s': string, b': string, id': Id)
    requires IsRun(ss, mvs) && NoPruning(mvs) && n < p < |mvs|
    requires H.KeyedSuccess(Labels(ss, mvs)[n], m, s, b, key, id)
    requires H.KeyedSuccess(Labels(ss, mvs)[p], m', s', b', key, id')
    ensures m' == m && s' == s && b' == b
    ensures id in ss[p + 1].w.db.bookings && (Active(ss[p + 1].w.db.bookings[id]) ==> id' == id)
  {
    InterleavingsRefine(ss, mvs);
    NoPruneLabels(ss, mvs);
    H.RetriesAgree(Worlds(ss), Labels(ss, mvs), n, p, key, m, s, b, id, m', s', b', id');
  }

  // ---------------------------------------------------------------- late confirms

  lemma HoldMoveKeepsStatements(s: State, mv: Move, s': State, t: nat)
    requires NextHold(s, mv, s') && t in s'.txs && !s'.txs[t].op.Hold?
    ensures t in s.txs && s.txs[t].op == s'.txs[t].op && s.txs[t].ts == s'.txs[t].ts
  {
  }

  /** A single-statement transaction keeps its request, and the timestamp it drew when it started. */
  lemma OtherMoveKeepsStatements(s: State, mv: Move, s': State, t: nat)
    requires NextOther(s, mv, s') && t in s'.txs && !s'.txs[t].op.Hold?
    ensures || (t in s.txs && s.txs[t].op == s'.txs[t].op && s.txs[t].ts == s'.txs[t].ts)
            || (mv == StartStatement(t, s'.txs[t].op) && s.w.clock == s'.txs[t].ts)
  {
  }

  /** The statement of transaction `t` started at move `j`. */
  ghost predicate StartedAt(ss: seq<State>, mvs: seq<Move>, j: nat, t: nat, op: Op, ts: Time)
    requires |ss| == |mvs| + 1
  {
    j < |mvs| && mvs[j] == StartStatement(t, op) && ss[j].w.clock == ts
  }

  lemma {:induction false} StatementStarted(ss: seq<State>, mvs: seq<Move>, k: nat, t: nat) returns (j: nat)
    requires IsRun(ss, mvs) && k < |ss| && t in ss[k].txs && !ss[k].txs[t].op.Hold?
    ensures j < k && StartedAt(ss, mvs, j, t, ss[k].txs[t].op, ss[k].txs[t].ts)
  {
    var mv := mvs[k - 1];
    assert Next(ss[k - 1], mv, ss[k]);
    if NextHold(ss[k - 1], mv, ss[k]) {
      HoldMoveKeepsStatements(ss[k - 1], mv, ss[k], t);
      j := StatementStarted(ss, mvs, k - 1, t);
    } else {
      OtherMoveKeepsStatements(ss[k - 1], mv, ss[k], t);
      if mv == StartStatement(t, ss[k].txs[t].op) && ss[k - 1].w.clock == ss[k].txs[t].ts {
        j := k - 1;
      } else {
        j := StatementStarted(ss, mvs, k - 1, t);
      }
    }
  }

  lemma ConfirmWrites(w: A.World, x: Tx)
    requires x.op.Confirm? && x.pc == Ready && PointOk(w.db, x)
    ensures x.op.id in w.db.bookings
    ensures var r := w.db.bookings[x.op.id];
            && r.status == Held && BeforeTtl(r, x.ts)
            && Applied(w, x).db.bookings == w.db.bookings[x.op.id := ConfirmedRow(r, x.ts)]
  {
    R.PointWrites(w.db.bookings, w.db.keys, x, x.op.id, ConfirmedRow(w.db.bookings[x.op.id], x.ts));
  }

  lemma ReadyIsPointOk(s: State, t: nat)
    requires Inv(s) && t in s.txs
    ensures PointOk(s.w.db, s.txs[t])
  {
    assert TxOk(s, s.txs[t]);
  }

  lemma CommitApplies(s: State, t: nat, s': State)
    requires Next(s, Commit(t), s')
    ensures At(s, t, Ready) && s'.w == Applied(s.w, s.txs[t])
  {
  }

  /** A confirm that commits found its hold still held, and had started, at move `j`, before the hold's
      expiry: a confirm sent at or after the expiry is refused whatever is interleaved. */
  lemma ConfirmStartedInTime(ss: seq<State>, mvs: seq<Move>, k: nat) returns (j: nat)
    requires IsRun(ss, mvs) && k < |mvs| && mvs[k].Commit? && mvs[k].t in ss[k].txs && ss[k].txs[mvs[k].t].op.Confirm?
    ensures var x := ss[k].txs[mvs[k].t];
            && j < k && StartedAt(ss, mvs, j, mvs[k].t, x.op, x.ts)
            && x.op.id in ss[k].w.db.bookings && ss[k].w.db.bookings[x.op.id].status == Held
            && ss[k].w.db.bookings[x.op.id].holdExpiresAt.Some?
            && ss[j].w.clock < ss[k].w.db.bookings[x.op.id].holdExpiresAt.value
            && ss[k + 1].w.db.bookings == ss[k].w.db.bookings[x.op.id := ConfirmedRow(ss[k].w.db.bookings[x.op.id], ss[j].w.clock)]
  {
    var t := mvs[k].t;
    assert PointOk(ss[k].w.db, ss[k].txs[t]) by {
      RunKeepsInv(ss, mvs, k);
      ReadyIsPointOk(ss[k], t);
    }
    CommitApplies(ss[k], t, ss[k + 1]);
    ConfirmWrites(ss[k].w, ss[k].txs[t]);
    j := StatementStarted(ss, mvs, k, t);
  }
}
