/**
 The same transactions at statement granularity, under PostgreSQL's READ COMMITTED rules.

 A transaction has a private write set (row versions, deleted and added keys) that becomes
 visible only at its commit. A statement that would write a row, or insert an index key,
 that an unfinished transaction has written is not enabled: it waits. The UPDATEs of the
 hold path see the rows committed when the statement started (`seen`) and re-evaluate them
 against the latest committed version when they run. A single statement draws its `now()` when it
 starts and its snapshot later; lookups and reads, which change nothing, carry the `now()` they
 drew at or before the move that answers them. `SkipIds` is a gap in the identity sequences, which never promise
 none. `Abort` is enabled at every point and
 stands for every error, cancellation, deadlock victim and crash before the commit.
 */
module Interleaving {
  import opened Options
  import opened Tables
  import opened Reads
  import A = Atomic

  datatype Op =
    | Hold(m: string, s: string, b: string, ttl: int, key: string)
    | Confirm(id: Id, b: string)
    | Release(id: Id, b: string)
    | Cancel(id: Id, b: string)
    | Sweep
    | Prune(retention: Time)

  datatype Pc =
    | LookedUp | Begun | Locked | KeyCleared | CancelStarted | CancelDone
    | ExpireStarted | ExpireDone | Inserted | Rejected
    | Snapped | CasDone | RefundDone | Ready

  datatype Tx = Tx(
    op: Op, pc: Pc, ts: Time, stale: Option<Id>, seen: set<Id>,
    rows: map<Id, Booking>, dels: set<string>, adds: map<string, Key>,
    id: Id, refundId: Id, eventId: Id)

  datatype State = State(
    w: A.World, txs: map<nat, Tx>, nextId: Id, nextRefund: Id, nextEvent: Id)

  datatype Move =
    | Tick(clock: Time)
    | LookupProceeds(t: nat, op: Op, at: Time)
    | LookupReplays(op: Op, id: Id, at: Time)
    | LookupMismatches(op: Op)
    | Begin(t: nat)
    | TakeLock(t: nat)
    | ClearKey(t: nat)
    | StartCancel(t: nat)
    | RunCancel(t: nat)
    | StartExpire(t: nat)
    | RunExpire(t: nat)
    | InsertRow(t: nat)
    | RejectRow(t: nat)
    | InsertKey(t: nat)
    | RejectKey(t: nat)
    | RecoveryReplays(t: nat, id: Id, at: Time)
    | RecoveryMismatches(t: nat)
    | RecoveryRefuses(t: nat, at: Time)
    | StartStatement(t: nat, op: Op)
    | TakeSnapshot(t: nat)
    | RunConfirm(t: nat)
    | RunRelease(t: nat)
    | RunCas(t: nat)
    | FindNothing(t: nat)
    | InsertRefund(t: nat)
    | InsertEvent(t: nat)
    | RunSweep(t: nat, ids: set<Id>)
    | RunPrune(t: nat, ks: set<string>)
    | Commit(t: nat)
    | Abort(t: nat)
    | WorkerWrites(refunds: map<Id, Refund>, events: map<Id, Event>)
    | SkipIds(id: Id, refund: Id, event: Id)
    | ReadSeats(m: string, at: Time)
    | ReadHistory(m: string, b: string)

  // ---------------------------------------------------------------- what a transaction holds

  predicate HasLock(x: Tx) {
    x.op.Hold? && x.pc in {Locked, KeyCleared, CancelStarted, CancelDone, ExpireStarted, ExpireDone, Inserted, Ready}
  }

  /** An uncommitted row sits in the table and its two index keys are taken. */
  predicate HasRow(x: Tx) {
    x.op.Hold? && (x.pc == Inserted || x.pc == Ready)
  }

  ghost predicate RowFree(s: State, t: nat, i: Id) {
    forall u :: u in s.txs && u != t ==> i !in s.txs[u].rows
  }

  ghost predicate KeyFree(s: State, t: nat, k: string) {
    forall u :: u in s.txs && u != t ==> k !in s.txs[u].dels && k !in s.txs[u].adds
  }

  /** No unfinished transaction has a row version under either index key of the new row. */
  ghost predicate IndexesQuiet(s: State, t: nat, m: string, seat: string, b: string) {
    forall u, i :: u in s.txs && u != t && i in s.txs[u].rows ==>
      !ActiveAt(s.txs[u].rows[i], m, seat) && !HeldBy(s.txs[u].rows[i], m, b)
  }

  // ---------------------------------------------------------------- hold path

  /** The mapping the fast-path lookup reports as dead, if any (holds.go:53-66). */
  ghost function StaleMapping(w: A.World, op: Op): Option<Id>
    requires op.Hold?
  {
    if op.key != "" && op.key in w.db.keys then Some(w.db.keys[op.key].bookingId) else None
  }

  ghost predicate LookupGoesOn(w: A.World, op: Op, at: Time)
    requires op.Hold?
  {
    op.key != "" ==>
      && !A.ReuseOk(w, op.m, op.s, op.b, op.key)
      && forall id :: !A.ReplayOk(w, op.m, op.s, op.b, op.key, id, at)
  }

  function Fresh(op: Op, pc: Pc, ts: Time, stale: Option<Id>, seen: set<Id>): Tx {
    Tx(op, pc, ts, stale, seen, map[], {}, map[], 0, 0, 0)
  }

  function Victims(bs: map<Id, Booking>, x: Tx): map<Id, Booking>
    requires x.op.Hold?
  {
    map i | i in bs && i in x.seen && OtherHold(bs[i], x.op.m, x.op.s, x.op.b) :: CancelledRow(bs[i], x.ts)
  }

  function Stales(bs: map<Id, Booking>, x: Tx): map<Id, Booking>
    requires x.op.Hold?
  {
    map i | i in bs && i in x.seen && StaleHold(bs[i], x.op.m, x.op.s, x.ts) :: ExpiredRow(bs[i])
  }

  function SweptRows(bs: map<Id, Booking>, ids: set<Id>): map<Id, Booking> {
    map i | i in ids && i in bs :: ExpiredRow(bs[i])
  }

  function Seen(x: Tx, pc: Pc, bs: map<Id, Booking>): Tx {
    x.(pc := pc, seen := bs.Keys)
  }

  function KeyCleared'(x: Tx, ks: map<string, Key>): Tx
    requires x.op.Hold?
  {
    x.(pc := KeyCleared,
       dels := if x.stale.Some? && x.op.key in ks && ks[x.op.key].bookingId == x.stale.value then {x.op.key} else {})
  }

  function WithRow(x: Tx, id: Id): Tx
    requires x.op.Hold?
  {
    x.(pc := if x.op.key == "" then Ready else Inserted, id := id,
       rows := x.rows[id := HeldRow(x.op.m, x.op.s, x.op.b, x.ts, x.op.ttl)])
  }

  function WithKey(x: Tx): Tx
    requires x.op.Hold?
  {
    x.(pc := Ready, adds := map[x.op.key := Key(x.id, x.ts)])
  }

  /** A statement error aborts the transaction at once: its writes and locks are gone. */
  function Failed'(x: Tx): Tx {
    x.(pc := Rejected, rows := map[], dels := {}, adds := map[])
  }

  /** No committed or own row version occupies either index key. */
  ghost predicate KeysUnoccupied(bs: map<Id, Booking>, x: Tx)
    requires x.op.Hold?
  {
    forall i :: i in bs && i !in x.rows ==>
      !ActiveAt(bs[i], x.op.m, x.op.s) && !HeldBy(bs[i], x.op.m, x.op.b)
  }

  // ---------------------------------------------------------------- commit

  /** The committed state after `x` commits: exactly its write set is applied. */
  function Applied(w: A.World, x: Tx): A.World {
    A.World(
      w.db.(bookings := w.db.bookings + x.rows,
            keys := (w.db.keys - x.dels) + x.adds,
            refunds := if x.op.Cancel? then w.db.refunds[x.refundId := A.RequestedRefund(x.op.id, x.ts)] else w.db.refunds,
            events := if x.op.Cancel? then w.db.events[x.eventId := A.RequestedEvent(x.op.id, x.refundId, x.ts)] else w.db.events),
      w.clock,
      if x.op.Hold? then w.births[x.id := A.Birth(w.clock, x.op.key)] else w.births)
  }

  // ---------------------------------------------------------------- transition relation

  ghost predicate Local(s: State, t: nat, x: Tx, s': State) {
    s' == s.(txs := s.txs[t := x])
  }

  ghost predicate Gone(s: State, t: nat, s': State) {
    s' == s.(txs := s.txs - {t})
  }

  ghost predicate At(s: State, t: nat, pc: Pc) {
    t in s.txs && s.txs[t].pc == pc
  }

  ghost predicate HoldAt(s: State, t: nat, pc: Pc) {
    At(s, t, pc) && s.txs[t].op.Hold?
  }

  ghost predicate NextHold(s: State, mv: Move, s': State) {
    match mv
    case LookupProceeds(t, op, at) =>
      && t !in s.txs && op.Hold? && at <= s.w.clock && LookupGoesOn(s.w, op, at)
      && Local(s, t, Fresh(op, LookedUp, s.w.clock, StaleMapping(s.w, op), {}), s')
    case LookupReplays(op, id, at) =>
      op.Hold? && op.key != "" && at <= s.w.clock && A.ReplayOk(s.w, op.m, op.s, op.b, op.key, id, at) && s' == s
    case LookupMismatches(op) => op.Hold? && op.key != "" && A.ReuseOk(s.w, op.m, op.s, op.b, op.key) && s' == s
    case Begin(t) => HoldAt(s, t, LookedUp) && Local(s, t, s.txs[t].(pc := Begun, ts := s.w.clock), s')
    case TakeLock(t) =>
      && HoldAt(s, t, Begun)
      && (forall u :: u in s.txs && HasLock(s.txs[u]) ==>
            s.txs[u].op.m != s.txs[t].op.m || s.txs[u].op.b != s.txs[t].op.b)
      && Local(s, t, s.txs[t].(pc := Locked), s')
    case ClearKey(t) =>
      && HoldAt(s, t, Locked)
      && (forall k, u :: k in KeyCleared'(s.txs[t], s.w.db.keys).dels && u in s.txs && u != t ==> k !in s.txs[u].dels)
      && Local(s, t, KeyCleared'(s.txs[t], s.w.db.keys), s')
    case StartCancel(t) =>
      HoldAt(s, t, KeyCleared) && Local(s, t, Seen(s.txs[t], CancelStarted, s.w.db.bookings), s')
    case RunCancel(t) =>
      && HoldAt(s, t, CancelStarted)
      && (forall i :: i in Victims(s.w.db.bookings, s.txs[t]) ==> RowFree(s, t, i))
      && Local(s, t, s.txs[t].(pc := CancelDone, rows := Victims(s.w.db.bookings, s.txs[t])), s')
    case StartExpire(t) =>
      HoldAt(s, t, CancelDone) && Local(s, t, Seen(s.txs[t], ExpireStarted, s.w.db.bookings), s')
    case RunExpire(t) =>
      && HoldAt(s, t, ExpireStarted)
      && (forall i :: i in Stales(s.w.db.bookings, s.txs[t]) ==> RowFree(s, t, i))
      && Local(s, t, s.txs[t].(pc := ExpireDone, rows := s.txs[t].rows + Stales(s.w.db.bookings, s.txs[t])), s')
    case InsertRow(t) =>
      && HoldAt(s, t, ExpireDone)
      && (s.txs[t].op.m, s.txs[t].op.s) in s.w.db.seats && s.txs[t].op.m in s.w.db.matches
      && KeysUnoccupied(s.w.db.bookings, s.txs[t])
      && IndexesQuiet(s, t, s.txs[t].op.m, s.txs[t].op.s, s.txs[t].op.b)
      && s' == s.(txs := s.txs[t := WithRow(s.txs[t], s.nextId)], nextId := s.nextId + 1)
    case RejectRow(t) =>
      && HoldAt(s, t, ExpireDone)
      && (exists i :: i in s.w.db.bookings && i !in s.txs[t].rows && RowFree(s, t, i)
            && (ActiveAt(s.w.db.bookings[i], s.txs[t].op.m, s.txs[t].op.s)
                || HeldBy(s.w.db.bookings[i], s.txs[t].op.m, s.txs[t].op.b)))
      && s' == s.(txs := s.txs[t := Failed'(s.txs[t])], nextId := s.nextId + 1)
    case InsertKey(t) =>
      && HoldAt(s, t, Inserted) && KeyFree(s, t, s.txs[t].op.key)
      && (s.txs[t].op.key in s.w.db.keys ==> s.txs[t].op.key in s.txs[t].dels)
      && Local(s, t, WithKey(s.txs[t]), s')
    case RejectKey(t) =>
      && HoldAt(s, t, Inserted) && KeyFree(s, t, s.txs[t].op.key)
      && s.txs[t].op.key in s.w.db.keys && s.txs[t].op.key !in s.txs[t].dels
      && Local(s, t, Failed'(s.txs[t]), s')
    case RecoveryReplays(t, id, at) =>
      && HoldAt(s, t, Rejected) && s.txs[t].op.key != "" && s.txs[t].ts <= at <= s.w.clock
      && A.ReplayOk(s.w, s.txs[t].op.m, s.txs[t].op.s, s.txs[t].op.b, s.txs[t].op.key, id, at)
      && Gone(s, t, s')
    case RecoveryMismatches(t) =>
      && HoldAt(s, t, Rejected) && s.txs[t].op.key != ""
      && A.ReuseOk(s.w, s.txs[t].op.m, s.txs[t].op.s, s.txs[t].op.b, s.txs[t].op.key)
      && Gone(s, t, s')
    case RecoveryRefuses(t, at) =>
      HoldAt(s, t, Rejected) && s.txs[t].ts <= at <= s.w.clock && LookupGoesOn(s.w, s.txs[t].op, at) && Gone(s, t, s')
    case _ => false
  }

  ghost predicate NextOther(s: State, mv: Move, s': State) {
    match mv
    case Tick(c) => s.w.clock <= c && s' == s.(w := s.w.(clock := c))
    case StartStatement(t, op) =>
      t !in s.txs && !op.Hold? && Local(s, t, Fresh(op, Begun, s.w.clock, None, {}), s')
    case TakeSnapshot(t) =>
      At(s, t, Begun) && !s.txs[t].op.Hold? && Local(s, t, Seen(s.txs[t], Snapped, s.w.db.bookings), s')
    case RunConfirm(t) =>
      && At(s, t, Snapped) && s.txs[t].op.Confirm?
      && s.txs[t].op.id in s.txs[t].seen && RowFree(s, t, s.txs[t].op.id)
      && A.Confirmable(s.w.db.bookings, s.txs[t].op.id, s.txs[t].op.b, s.txs[t].ts)
      && Local(s, t, s.txs[t].(pc := Ready, rows :=
                 map[s.txs[t].op.id := ConfirmedRow(s.w.db.bookings[s.txs[t].op.id], s.txs[t].ts)]), s')
    case RunRelease(t) =>
      && At(s, t, Snapped) && s.txs[t].op.Release?
      && s.txs[t].op.id in s.txs[t].seen && RowFree(s, t, s.txs[t].op.id)
      && A.Releasable(s.w.db.bookings, s.txs[t].op.id, s.txs[t].op.b)
      && Local(s, t, s.txs[t].(pc := Ready, rows :=
                 map[s.txs[t].op.id := CancelledRow(s.w.db.bookings[s.txs[t].op.id], s.txs[t].ts)]), s')
    case RunCas(t) =>
      && At(s, t, Snapped) && s.txs[t].op.Cancel?
      && s.txs[t].op.id in s.txs[t].seen && RowFree(s, t, s.txs[t].op.id)
      && A.Cancellable(s.w.db, s.txs[t].op.id, s.txs[t].op.b, s.txs[t].ts)
      && Local(s, t, s.txs[t].(pc := CasDone, rows :=
                 map[s.txs[t].op.id := CancelledRow(s.w.db.bookings[s.txs[t].op.id], s.txs[t].ts)]), s')
    case FindNothing(t) =>
      && At(s, t, Snapped)
      && (match s.txs[t].op
          case Confirm(id, b) => id !in s.txs[t].seen || !A.Confirmable(s.w.db.bookings, id, b, s.txs[t].ts)
          case Release(id, b) => id !in s.txs[t].seen || !A.Releasable(s.w.db.bookings, id, b)
          case Cancel(id, b) => id !in s.txs[t].seen || !A.Cancellable(s.w.db, id, b, s.txs[t].ts)
          case _ => false)
      && Gone(s, t, s')
    case InsertRefund(t) =>
      && At(s, t, CasDone) && s.txs[t].op.Cancel?
      && s' == s.(txs := s.txs[t := s.txs[t].(pc := RefundDone, refundId := s.nextRefund)], nextRefund := s.nextRefund + 1)
    case InsertEvent(t) =>
      && At(s, t, RefundDone) && s.txs[t].op.Cancel?
      && s' == s.(txs := s.txs[t := s.txs[t].(pc := Ready, eventId := s.nextEvent)], nextEvent := s.nextEvent + 1)
    case RunSweep(t, ids) =>
      && At(s, t, Snapped) && s.txs[t].op.Sweep?
      && (forall i :: i in ids ==>
            && i in s.txs[t].seen && RowFree(s, t, i) && i in s.w.db.bookings
            && s.w.db.bookings[i].status == Held && PastTtl(s.w.db.bookings[i], s.txs[t].ts))
      && Local(s, t, s.txs[t].(pc := Ready, rows := SweptRows(s.w.db.bookings, ids)), s')
    case RunPrune(t, ks) =>
      && At(s, t, Snapped) && s.txs[t].op.Prune?
      && (forall k :: k in ks ==>
            KeyFree(s, t, k) && k in s.w.db.keys && s.w.db.keys[k].createdAt < s.txs[t].ts - s.txs[t].op.retention)
      && Local(s, t, s.txs[t].(pc := Ready, dels := ks), s')
    case Commit(t) => At(s, t, Ready) && s' == s.(w := Applied(s.w, s.txs[t]), txs := s.txs - {t})
    case Abort(t) => t in s.txs && Gone(s, t, s')
    case WorkerWrites(rs, es) =>
      var w' := s.w.(db := s.w.db.(refunds := rs, events := es));
      A.WorkerStep(s.w, w') && s' == s.(w := w')
    case SkipIds(i, r, e) =>
      && s.nextId <= i && s.nextRefund <= r && s.nextEvent <= e
      && s' == s.(nextId := i, nextRefund := r, nextEvent := e)
    case ReadSeats(_, at) => at <= s.w.clock && s' == s
    case ReadHistory(_, _) => s' == s
    case _ => false
  }

  ghost predicate Next(s: State, mv: Move, s': State) {
    NextHold(s, mv, s') || NextOther(s, mv, s')
  }

  ghost predicate Init(s: State) {
    A.Init(s.w) && s.txs == map[]
  }

  // ---------------------------------------------------------------- the atomic step a move stands for

  ghost function CommitLabel(x: Tx): A.Label {
    match x.op
    case Hold(m, seat, b, ttl, key) => A.HoldCommitted(x.ts, m, seat, b, ttl, key, x.stale, x.id)
    case Confirm(id, b) => A.ConfirmCommitted(x.ts, id, b)
    case Release(id, b) => A.ReleaseCommitted(x.ts, id, b)
    case Cancel(id, b) => A.CancelCommitted(x.ts, id, b, x.refundId, x.eventId)
    case Sweep => A.SweepCommitted(x.ts, x.rows.Keys)
    case Prune(r) => A.PruneCommitted(x.ts, r, x.dels)
  }

  ghost function RefusalLabel(x: Tx): A.Label {
    match x.op
    case Confirm(id, b) => A.ConfirmRefused(x.ts, id, b)
    case Release(id, b) => A.ReleaseRefused(x.ts, id, b)
    case Cancel(id, b) => A.CancelRefused(x.ts, id, b)
    case _ => A.Idle
  }

  ghost function RejectedRow(t: nat, x: Tx): A.Label
    requires x.op.Hold?
  {
    A.InsertRejected(t, x.ts, x.op.m, x.op.s, x.op.b, x.op.key)
  }

  ghost function RejectedKey(t: nat, x: Tx): A.Label
    requires x.op.Hold?
  {
    A.KeyRejected(t, x.ts, x.op.m, x.op.s, x.op.b, x.op.key, x.stale)
  }

  ghost function Refused(t: nat, x: Tx, at: Time): A.Label
    requires x.op.Hold?
  {
    A.SeatRefused(t, x.ts, at, x.op.m, x.op.s, x.op.b, x.op.key)
  }

  /** Every move but a commit, a worker statement and a clock tick leaves the committed state alone;
      moves that answer a request carry the answer. */
  ghost function LabelOf(s: State, mv: Move, s': State): A.Label
    requires Next(s, mv, s')
  {
    match mv
    case Tick(_) => A.Tick
    case LookupReplays(op, id, at) => A.Replayed(at, op.m, op.s, op.b, op.key, id)
    case LookupMismatches(op) => A.KeyReused(op.m, op.s, op.b, op.key)
    case RejectRow(t) => RejectedRow(t, s.txs[t])
    case RejectKey(t) => RejectedKey(t, s.txs[t])
    case RecoveryReplays(t, id, at) => A.Replayed(at, s.txs[t].op.m, s.txs[t].op.s, s.txs[t].op.b, s.txs[t].op.key, id)
    case RecoveryMismatches(t) => A.KeyReused(s.txs[t].op.m, s.txs[t].op.s, s.txs[t].op.b, s.txs[t].op.key)
    case RecoveryRefuses(t, at) => Refused(t, s.txs[t], at)
    case FindNothing(t) => RefusalLabel(s.txs[t])
    case Commit(t) => CommitLabel(s.txs[t])
    case WorkerWrites(_, _) => A.WorkerWrote
    case ReadSeats(m, at) => A.SeatsRead(at, m, SeatMap(s.w.db, at, m))
    case ReadHistory(m, b) => A.HistoryRead(m, b, HistoryOf(s.w.db, m, b))
    case _ => A.Idle
  }

  // ---------------------------------------------------------------- invariant of one transaction

  /** Own row versions are rewrites of committed rows, or the one new row. */
  ghost predicate RowsOk(bs: map<Id, Booking>, x: Tx) {
    forall i :: i in x.rows ==>
      if i in bs then A.Rewritten(bs[i], x.rows[i], x.ts) else HasRow(x) && i == x.id
  }

  ghost predicate HoldRow(bs: map<Id, Booking>, x: Tx, i: Id)
    requires x.op.Hold? && i in x.rows
  {
    && i in bs
    && ((OtherHold(bs[i], x.op.m, x.op.s, x.op.b) && x.rows[i] == CancelledRow(bs[i], x.ts))
        || (StaleHold(bs[i], x.op.m, x.op.s, x.ts) && x.rows[i] == ExpiredRow(bs[i])))
  }

  /** Everything the hold path wrote so far is one of its two UPDATEs, or its INSERT. */
  ghost predicate HoldRows(bs: map<Id, Booking>, x: Tx)
    requires x.op.Hold?
  {
    forall i :: i in x.rows ==> HoldRow(bs, x, i) || (HasRow(x) && i == x.id)
  }

  ghost predicate OthersIn(bs: map<Id, Booking>, x: Tx, ids: set<Id>)
    requires x.op.Hold?
  {
    forall i :: i in bs && OtherHold(bs[i], x.op.m, x.op.s, x.op.b) ==> i in ids
  }

  ghost predicate OthersOk(bs: map<Id, Booking>, x: Tx)
    requires x.op.Hold?
  {
    match x.pc
    case CancelStarted => OthersIn(bs, x, x.seen)
    case CancelDone => OthersIn(bs, x, x.rows.Keys)
    case ExpireStarted => OthersIn(bs, x, x.rows.Keys)
    case ExpireDone => OthersIn(bs, x, x.rows.Keys)
    case Inserted => OthersIn(bs, x, x.rows.Keys)
    case Ready => OthersIn(bs, x, x.rows.Keys)
    case _ => x.rows == map[]
  }

  ghost predicate NewRowOk(db: Db, x: Tx, n: Id)
    requires x.op.Hold?
  {
    HasRow(x) ==>
      && x.id in x.rows && x.id !in db.bookings && x.id < n
      && x.rows[x.id] == HeldRow(x.op.m, x.op.s, x.op.b, x.ts, x.op.ttl)
      && (x.op.m, x.op.s) in db.seats && x.op.m in db.matches
      && KeysUnoccupied(db.bookings, x)
  }

  predicate StaleOk(bs: map<Id, Booking>, x: Tx)
    requires x.op.Hold?
  {
    x.stale.Some? ==> x.op.key != "" && x.stale.value in bs && SameParams(bs[x.stale.value], x.op.m, x.op.s, x.op.b)
  }

  /** The guarded delete has run: it took the stale mapping, or found the key elsewhere. */
  predicate PastClearing(x: Tx) {
    x.pc in {KeyCleared, CancelStarted, CancelDone, ExpireStarted, ExpireDone, Inserted, Ready}
  }

  ghost predicate KeysOk(ks: map<string, Key>, x: Tx)
    requires x.op.Hold?
  {
    && (forall k :: k in x.dels ==> k == x.op.key && k in ks && x.stale == Some(ks[k].bookingId))
    && (if x.pc == Ready && x.op.key != "" then
          x.adds == map[x.op.key := Key(x.id, x.ts)] && (x.op.key in ks ==> x.op.key in x.dels)
        else x.adds == map[])
    && (x.pc == Inserted ==> x.op.key != "")
    && (PastClearing(x) && x.op.key in ks && x.op.key !in x.dels ==> x.stale != Some(ks[x.op.key].bookingId))
  }

  /** Before the lazy expiry no row on the target is written; after it, of the rows its statement saw,
      exactly the stale ones are. */
  ghost predicate StalesOk(bs: map<Id, Booking>, x: Tx)
    requires x.op.Hold?
  {
    && (x.pc == CancelDone || x.pc == ExpireStarted ==>
          forall i :: i in x.rows && i in bs ==> bs[i].seatId != x.op.s)
    && (x.pc in {ExpireDone, Inserted, Ready} ==>
          forall i :: i in bs && StaleHold(bs[i], x.op.m, x.op.s, x.ts) ==> (i in x.seen <==> i in x.rows))
  }

  ghost predicate HoldOk(db: Db, x: Tx, n: Id) {
    x.op.Hold? ==>
      && HoldRows(db.bookings, x)
      && OthersOk(db.bookings, x)
      && NewRowOk(db, x, n)
      && StaleOk(db.bookings, x)
      && KeysOk(db.keys, x)
      && StalesOk(db.bookings, x)
  }

  /** A statement of the transaction has taken its snapshot. */
  predicate HasSnapshot(x: Tx) {
    if x.op.Hold? then x.pc in {CancelStarted, CancelDone, ExpireStarted, ExpireDone, Inserted, Ready}
    else x.pc != Begun
  }

  /** A row that the last snapshot missed was born after the transaction drew its timestamp; the
      snapshot may well show rows born after it. */
  ghost predicate SeenOk(w: A.World, x: Tx) {
    HasSnapshot(x) ==>
      && x.seen <= w.births.Keys
      && forall i :: i in w.births && i !in x.seen ==> x.ts <= w.births[i].at
  }

  ghost predicate PointOk(db: Db, x: Tx) {
    match x.op
    case Confirm(id, b) =>
      && x.dels == {} && x.adds == map[]
      && (if x.pc == Ready then
            id in x.seen && A.Confirmable(db.bookings, id, b, x.ts) && x.rows == map[id := ConfirmedRow(db.bookings[id], x.ts)]
          else x.rows == map[])
    case Release(id, b) =>
      && x.dels == {} && x.adds == map[]
      && (if x.pc == Ready then
            A.Releasable(db.bookings, id, b) && x.rows == map[id := CancelledRow(db.bookings[id], x.ts)]
          else x.rows == map[])
    case Cancel(id, b) =>
      && x.dels == {} && x.adds == map[]
      && (if x.pc in {CasDone, RefundDone, Ready} then
            A.Cancellable(db, id, b, x.ts) && x.rows == map[id := CancelledRow(db.bookings[id], x.ts)]
          else x.rows == map[])
    case Sweep =>
      && x.dels == {} && x.adds == map[]
      && forall i :: i in x.rows ==>
           && x.pc == Ready && i in db.bookings && db.bookings[i].status == Held
           && PastTtl(db.bookings[i], x.ts) && x.rows[i] == ExpiredRow(db.bookings[i])
    case Prune(retention) =>
      && x.rows == map[] && x.adds == map[]
      && forall k :: k in x.dels ==> k in db.keys && db.keys[k].createdAt < x.ts - retention
    case Hold(_, _, _, _, _) => true
  }

  predicate HasRefund(x: Tx) {
    x.op.Cancel? && (x.pc == RefundDone || x.pc == Ready)
  }

  predicate HasEvent(x: Tx) {
    x.op.Cancel? && x.pc == Ready
  }

  predicate IdsOk(s: State, x: Tx) {
    && (HasRefund(x) ==> x.refundId !in s.w.db.refunds && x.refundId < s.nextRefund)
    && (HasEvent(x) ==> x.eventId !in s.w.db.events && x.eventId < s.nextEvent)
  }

  ghost predicate TxOk(s: State, x: Tx) {
    && x.ts <= s.w.clock
    && RowsOk(s.w.db.bookings, x)
    && HoldOk(s.w.db, x, s.nextId)
    && SeenOk(s.w, x)
    && PointOk(s.w.db, x)
    && IdsOk(s, x)
  }

  // ---------------------------------------------------------------- invariant of two transactions

  predicate LocksApart(x: Tx, y: Tx) {
    HasLock(x) && HasLock(y) ==> x.op.m != y.op.m || x.op.b != y.op.b
  }

  predicate SeatsApart(x: Tx, y: Tx) {
    HasRow(x) && HasRow(y) ==> x.op.m != y.op.m || x.op.s != y.op.s
  }

  predicate WritesApart(x: Tx, y: Tx) {
    && x.rows.Keys !! y.rows.Keys
    && x.dels !! y.dels
    && x.adds.Keys !! y.adds.Keys
    && x.adds.Keys !! y.dels
    && y.adds.Keys !! x.dels
  }

  predicate IdsApart(x: Tx, y: Tx) {
    && (HasRefund(x) && HasRefund(y) ==> x.refundId != y.refundId)
    && (HasEvent(x) && HasEvent(y) ==> x.eventId != y.eventId)
  }

  predicate Apart(x: Tx, y: Tx) {
    LocksApart(x, y) && SeatsApart(x, y) && WritesApart(x, y) && IdsApart(x, y)
  }

  ghost predicate CountersOk(s: State) {
    && (forall i :: i in s.w.db.bookings ==> i < s.nextId)
    && (forall r :: r in s.w.db.refunds ==> r < s.nextRefund)
    && (forall e :: e in s.w.db.events ==> e < s.nextEvent)
  }

  ghost predicate Inv(s: State) {
    && A.Inv(s.w)
    && CountersOk(s)
    && (forall t :: t in s.txs ==> TxOk(s, s.txs[t]))
    && (forall t, u :: t in s.txs && u in s.txs && t != u ==> Apart(s.txs[t], s.txs[u]))
  }

  // ---------------------------------------------------------------- private moves

  /** A move that changes one transaction's private state, and possibly draws from a sequence. */
  lemma PrivateKeepsInv(s: State, t: nat, x: Tx, s': State)
    requires Inv(s)
    requires s'.w == s.w && s'.txs == s.txs[t := x]
    requires s.nextId <= s'.nextId && s.nextRefund <= s'.nextRefund && s.nextEvent <= s'.nextEvent
    requires TxOk(s', x)
    requires forall u :: u in s.txs && u != t ==> Apart(x, s.txs[u])
    ensures Inv(s')
  {
    forall u | u in s'.txs ensures TxOk(s', s'.txs[u]) {
      if u != t {
        assert TxOk(s, s.txs[u]);
      }
    }
    forall u, v | u in s'.txs && v in s'.txs && u != v ensures Apart(s'.txs[u], s'.txs[v]) {
      if u == t {
        assert Apart(x, s.txs[v]);
      } else if v == t {
        assert Apart(x, s.txs[u]);
      } else {
        assert Apart(s.txs[u], s.txs[v]);
      }
    }
  }

  lemma GoneKeepsInv(s: State, t: nat, s': State)
    requires Inv(s) && Gone(s, t, s')
    ensures Inv(s')
  {
    forall u | u in s'.txs ensures TxOk(s', s'.txs[u]) {
      assert TxOk(s, s.txs[u]);
    }
    forall u, v | u in s'.txs && v in s'.txs && u != v ensures Apart(s'.txs[u], s'.txs[v]) {
      assert Apart(s.txs[u], s.txs[v]);
    }
  }
}
