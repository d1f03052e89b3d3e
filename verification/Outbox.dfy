/**
 The refund outbox as a protocol of many workers. Each database call of the worker is a step
 that may be applied, fail, or be applied and still be reported as failed; a worker may crash
 at any point. `calls` is the log of gateway calls.
 */
module Outbox {
  import opened Options
  import opened Tables

  /** claimLeaseTTL: 30 seconds. */
  const LEASE: Time := 30_000_000

  // ---------------------------------------------------------------- statements

  /** The filter of PollUnprocessed's sub-select (outbox.go:57-58). */
  predicate Claimable(e: Event, now: Time) {
    e.processedAt.None? && (e.claimedAt.None? || e.claimedAt.value < now - LEASE)
  }

  function Claimed(es: map<Id, Event>, ids: set<Id>, now: Time): map<Id, Event> {
    map e | e in es :: if e in ids then es[e].(claimedAt := Some(now)) else es[e]
  }

  /** ReleaseClaim (outbox.go:90-98). */
  function Released(es: map<Id, Event>, e: Id): map<Id, Event> {
    if e in es && es[e].processedAt.None? then es[e := es[e].(claimedAt := None)] else es
  }

  /** MarkProcessed (outbox.go:103-111). */
  function Processed(es: map<Id, Event>, e: Id, now: Time): map<Id, Event> {
    if e in es && es[e].processedAt.None? then es[e := es[e].(processedAt := Some(now))] else es
  }

  /** MarkRefundStatus with status 'refunded' (refunds.go:62-71). */
  function MarkedRefunded(rs: map<Id, Refund>, r: Id, ref: string, now: Time): map<Id, Refund> {
    if r in rs && rs[r].status == Pending
    then rs[r := rs[r].(status := Refunded, completedAt := Some(now), externalRef := Some(ref))]
    else rs
  }

  predicate IsRefundEvent(e: Event) {
    e.eventType == REFUND_REQUESTED && e.payload.RefundId?
  }

  // ---------------------------------------------------------------- machine

  datatype Call = Call(refundId: Id, ref: string)

  /** Where a worker is with the first event of its batch. */
  datatype Stage = Start | Called(ref: string) | Marked | Erring | DeadLetter

  datatype Worker = Worker(queue: seq<Id>, stage: Stage)

  datatype State = State(
    refunds: map<Id, Refund>, events: map<Id, Event>, clock: Time,
    workers: map<nat, Worker>, calls: seq<Call>)

  datatype Move =
    | Tick(clock: Time)
    | Cancel(bookingId: Id, ts: Time, refundId: Id, eventId: Id)
    | InsertOther(id: Id, e: Event)
    | Poll(w: nat, batch: seq<Id>, reported: bool)
    | Discard(w: nat)
    | CallGateway(w: nat, ref: string)
    | MarkRefund(w: nat, applied: bool, reported: bool)
    | MarkProcessed(w: nat, applied: bool)
    | ReleaseClaim(w: nat, applied: bool)
    | Crash(w: nat)

  ghost predicate At(s: State, w: nat) {
    w in s.workers && s.workers[w].queue != [] && s.workers[w].queue[0] in s.events
  }

  function Head(s: State, w: nat): Id
    requires w in s.workers && s.workers[w].queue != []
  {
    s.workers[w].queue[0]
  }

  function Staged(s: State, w: nat, stage: Stage): State
    requires w in s.workers
  {
    s.(workers := s.workers[w := s.workers[w].(stage := stage)])
  }

  function Dequeued(s: State, w: nat): State
    requires w in s.workers && s.workers[w].queue != []
  {
    s.(workers := s.workers[w := Worker(s.workers[w].queue[1..], Start)])
  }

  ghost predicate Next(s: State, mv: Move, s': State) {
    match mv
    case Tick(c) => s.clock <= c && s' == s.(clock := c)
    case Cancel(b, ts, r, e) =>
      && ts <= s.clock && r !in s.refunds && e !in s.events
      && s' == s.(refunds := s.refunds[r := Refund(b, Pending, ts, None, None)],
                  events := s.events[e := Event(REFUND_REQUESTED, b, RefundId(r), ts, None, None)])
    case InsertOther(i, e) =>
      && i !in s.events && !IsRefundEvent(e) && e.processedAt.None? && e.claimedAt.None?
      && s' == s.(events := s.events[i := e])
    case Poll(w, batch, reported) =>
      && (w in s.workers ==> s.workers[w].queue == [])
      && (forall e :: e in batch ==> e in s.events && Claimable(s.events[e], s.clock))
      && s' == s.(events := Claimed(s.events, (set e | e in batch), s.clock),
                  workers := s.workers[w := Worker(if reported then batch else [], Start)])
    case Discard(w) =>
      && At(s, w) && s.workers[w].stage == Start && !IsRefundEvent(s.events[Head(s, w)])
      && s' == Staged(s, w, DeadLetter)
    case CallGateway(w, ref) =>
      && At(s, w) && s.workers[w].stage == Start && IsRefundEvent(s.events[Head(s, w)])
      && s' == Staged(s, w, Called(ref)).(calls := s.calls + [Call(s.events[Head(s, w)].payload.id, ref)])
    case MarkRefund(w, applied, reported) =>
      && At(s, w) && s.workers[w].stage.Called? && IsRefundEvent(s.events[Head(s, w)])
      && (reported ==> applied)
      && var r, ref := s.events[Head(s, w)].payload.id, s.workers[w].stage.ref;
         s' == Staged(s, w, if reported then Marked else Erring).(
                 refunds := if applied then MarkedRefunded(s.refunds, r, ref, s.clock) else s.refunds)
    case MarkProcessed(w, applied) =>
      && At(s, w) && (s.workers[w].stage == Marked || s.workers[w].stage == DeadLetter)
      && s' == Dequeued(s, w).(events := if applied then Processed(s.events, Head(s, w), s.clock) else s.events)
    case ReleaseClaim(w, applied) =>
      && At(s, w) && s.workers[w].stage == Erring
      && s' == Dequeued(s, w).(events := if applied then Released(s.events, Head(s, w)) else s.events)
    case Crash(w) => s' == s.(workers := s.workers[w := Worker([], Start)])
  }

  ghost predicate Init(s: State) {
    s.refunds == map[] && s.events == map[] && s.workers == map[] && s.calls == []
  }

  // ---------------------------------------------------------------- invariant

  predicate IsRefunded(rs: map<Id, Refund>, r: Id) {
    r in rs && rs[r].status == Refunded
  }

  /** Every refund event names an existing refund. */
  ghost predicate RowsOk(s: State) {
    forall e :: e in s.events && IsRefundEvent(s.events[e]) ==> s.events[e].payload.id in s.refunds
  }

  /** The refund of a processed event is refunded. */
  ghost predicate ProcessedOk(s: State) {
    forall e :: e in s.events && IsRefundEvent(s.events[e]) && s.events[e].processedAt.Some? ==>
      IsRefunded(s.refunds, s.events[e].payload.id)
  }

  ghost predicate Announces(s: State, e: Id, r: Id) {
    e in s.events && s.events[e].eventType == REFUND_REQUESTED && s.events[e].payload == RefundId(r)
  }

  /** Every refund was announced by an event. */
  ghost predicate Announced(s: State) {
    forall r :: r in s.refunds ==> exists e :: Announces(s, e, r)
  }

  /** Refund `r` is pending with its last two columns empty, or refunded, stamped, and with the reference
      of a gateway call made for it. */
  predicate Receipted(refund: Refund, r: Id, calls: seq<Call>) {
    match refund.status
    case Pending => refund.completedAt.None? && refund.externalRef.None?
    case Refunded => refund.completedAt.Some? && refund.externalRef.Some? && Call(r, refund.externalRef.value) in calls
    case Failed => false
  }

  ghost predicate Receipts(s: State) {
    forall r :: r in s.refunds ==> Receipted(s.refunds[r], r, s.calls)
  }

  /** What a worker's position tells about the event it is on. */
  ghost predicate WorkerOk(s: State, k: Worker) {
    && (forall e :: e in k.queue ==> e in s.events)
    && (k.queue == [] ==> k.stage == Start)
    && (k.queue != [] ==>
          var e := s.events[k.queue[0]];
          match k.stage
          case Start => true
          case Called(ref) => IsRefundEvent(e) && Call(e.payload.id, ref) in s.calls
          case Marked => IsRefundEvent(e) && IsRefunded(s.refunds, e.payload.id)
          case Erring => IsRefundEvent(e)
          case DeadLetter => !IsRefundEvent(e))
  }

  ghost predicate Inv(s: State) {
    && RowsOk(s) && ProcessedOk(s) && Announced(s) && Receipts(s)
    && forall w :: w in s.workers ==> WorkerOk(s, s.workers[w])
  }

  // ---------------------------------------------------------------- what every step keeps

  predicate SameContent(e: Event, e': Event) {
    e'.eventType == e.eventType && e'.payload == e.payload && e'.bookingId == e.bookingId
  }

  /** Events keep their content, a refunded refund never changes again, and the call log only grows. */
  ghost predicate Evolves(s: State, s': State) {
    && (forall e :: e in s.events ==> e in s'.events && SameContent(s.events[e], s'.events[e]))
    && (forall r :: r in s.refunds ==> r in s'.refunds)
    && (forall r :: IsRefunded(s.refunds, r) ==> r in s'.refunds && s'.refunds[r] == s.refunds[r])
    && s.calls <= s'.calls
  }

  lemma StepEvolves(s: State, mv: Move, s': State)
    requires RowsOk(s) && Next(s, mv, s')
    ensures Evolves(s, s')
  {
  }

  lemma WorkerStable(s: State, s': State, k: Worker)
    requires WorkerOk(s, k) && Evolves(s, s')
    ensures WorkerOk(s', k)
  {
    if k.queue != [] {
      assert k.queue[0] in s.events;
      assert SameContent(s.events[k.queue[0]], s'.events[k.queue[0]]);
      if k.stage.Marked? {
        assert IsRefunded(s.refunds, s.events[k.queue[0]].payload.id);
      }
    }
  }

  lemma StepKeepsRowsOk(s: State, mv: Move, s': State)
    requires RowsOk(s) && Next(s, mv, s')
    ensures RowsOk(s')
  {
  }

  lemma StepKeepsAnnounced(s: State, mv: Move, s': State)
    requires RowsOk(s) && Announced(s) && Next(s, mv, s')
    ensures Announced(s')
  {
    StepEvolves(s, mv, s');
    forall r | r in s'.refunds ensures exists e :: Announces(s', e, r) {
      if r in s.refunds {
        var e :| Announces(s, e, r);
        assert Announces(s', e, r);
      } else {
        assert Announces(s', mv.eventId, r);
      }
    }
  }

  lemma StepKeepsReceipts(s: State, mv: Move, s': State)
    requires RowsOk(s) && Receipts(s) && Next(s, mv, s')
    requires forall w :: w in s.workers ==> WorkerOk(s, s.workers[w])
    ensures Receipts(s')
  {
    StepEvolves(s, mv, s');
    forall r | r in s'.refunds ensures Receipted(s'.refunds[r], r, s'.calls) {
      if r in s.refunds && s'.refunds[r] == s.refunds[r] {
        assert Receipted(s.refunds[r], r, s.calls);
      } else if r in s.refunds {
        assert mv.MarkRefund? && WorkerOk(s, s.workers[mv.w]);
      }
    }
  }

  lemma StepKeepsProcessedOk(s: State, mv: Move, s': State)
    requires RowsOk(s) && ProcessedOk(s) && Next(s, mv, s')
    requires forall w :: w in s.workers ==> WorkerOk(s, s.workers[w])
    ensures ProcessedOk(s')
  {
    StepEvolves(s, mv, s');
    forall e | e in s'.events && IsRefundEvent(s'.events[e]) && s'.events[e].processedAt.Some?
      ensures IsRefunded(s'.refunds, s'.events[e].payload.id)
    {
      if e in s.events {
        assert SameContent(s.events[e], s'.events[e]);
        if s.events[e].processedAt.Some? {
          assert IsRefunded(s.refunds, s.events[e].payload.id);
        } else {
          assert mv.MarkProcessed? && WorkerOk(s, s.workers[mv.w]);
          assert IsRefunded(s.refunds, s.events[e].payload.id);
        }
      }
    }
  }

  lemma StepKeepsOwnWorker(s: State, mv: Move, s': State, w: nat)
    requires RowsOk(s) && Receipts(s) && Next(s, mv, s') && w in s'.workers
    requires forall v :: v in s.workers ==> WorkerOk(s, s.workers[v])
    requires !(w in s.workers && s'.workers[w] == s.workers[w])
    ensures WorkerOk(s', s'.workers[w])
  {
    StepEvolves(s, mv, s');
    if w in s.workers {
      assert WorkerOk(s, s.workers[w]);
    }
    match mv
    case MarkRefund(_, applied, reported) =>
      var r := s.events[Head(s, w)].payload.id;
      assert Receipted(s.refunds[r], r, s.calls);
    case _ =>
  }

  lemma StepKeepsInv(s: State, mv: Move, s': State)
    requires Inv(s) && Next(s, mv, s')
    ensures Inv(s')
  {
    StepEvolves(s, mv, s');
    StepKeepsRowsOk(s, mv, s');
    StepKeepsAnnounced(s, mv, s');
    StepKeepsReceipts(s, mv, s');
    StepKeepsProcessedOk(s, mv, s');
    forall w | w in s'.workers ensures WorkerOk(s', s'.workers[w]) {
      if w in s.workers && s'.workers[w] == s.workers[w] {
        WorkerStable(s, s', s.workers[w]);
      } else {
        StepKeepsOwnWorker(s, mv, s', w);
      }
    }
  }

  // ---------------------------------------------------------------- whole runs

  ghost predicate IsRun(ss: seq<State>, mvs: seq<Move>) {
    && |ss| == |mvs| + 1
    && Init(ss[0])
    && forall k :: 0 <= k < |mvs| ==> Next(ss[k], mvs[k], ss[k + 1])
  }

  lemma {:induction false} RunKeepsInv(ss: seq<State>, mvs: seq<Move>, k: nat)
    requires IsRun(ss, mvs) && k < |ss|
    ensures Inv(ss[k])
  {
    if k > 0 {
      RunKeepsInv(ss, mvs, k - 1);
      StepKeepsInv(ss[k - 1], mvs[k - 1], ss[k]);
    }
  }

  /** Across all interleavings, crashes, ambiguous errors and lapsed leases: every refund is pending, with
      an unprocessed event that names it, or refunded, and it is refunded iff it is stamped and iff it
      bears a reference, which is that of a call the gateway really got for it; the refund named by a
      processed event is refunded. */
  lemma NoRefundIsLost(ss: seq<State>, mvs: seq<Move>, k: nat)
    requires IsRun(ss, mvs) && k < |ss|
    ensures forall r :: r in ss[k].refunds ==> ss[k].refunds[r].status == Pending || ss[k].refunds[r].status == Refunded
    ensures forall r :: r in ss[k].refunds ==>
              && (ss[k].refunds[r].status == Refunded <==> ss[k].refunds[r].externalRef.Some?)
              && (ss[k].refunds[r].status == Refunded <==> ss[k].refunds[r].completedAt.Some?)
              && (ss[k].refunds[r].externalRef.Some? ==> Call(r, ss[k].refunds[r].externalRef.value) in ss[k].calls)
    ensures forall r :: r in ss[k].refunds && ss[k].refunds[r].status == Pending ==>
              exists e :: Announces(ss[k], e, r) && ss[k].events[e].processedAt.None?
    ensures forall e :: e in ss[k].events && IsRefundEvent(ss[k].events[e]) && ss[k].events[e].processedAt.Some? ==>
              IsRefunded(ss[k].refunds, ss[k].events[e].payload.id)
  {
    RunKeepsInv(ss, mvs, k);
    forall r | r in ss[k].refunds && ss[k].refunds[r].status == Pending
      ensures exists e :: Announces(ss[k], e, r) && ss[k].events[e].processedAt.None?
    {
      var e :| Announces(ss[k], e, r);
    }
    forall r | r in ss[k].refunds ensures Receipted(ss[k].refunds[r], r, ss[k].calls) {
    }
  }

  /** The move settles refund `r`: a worker that called the gateway for it finds it pending. */
  ghost predicate Settles(s: State, mv: Move, r: Id) {
    && mv.MarkRefund? && mv.applied && At(s, mv.w) && s.workers[mv.w].stage.Called?
    && s.events[Head(s, mv.w)].payload == RefundId(r)
    && r in s.refunds && s.refunds[r].status == Pending
  }

  /** The row that a settling move writes. */
  ghost function SettledRow(s: State, mv: Move, r: Id): Refund
    requires Settles(s, mv, r)
  {
    s.refunds[r].(status := Refunded, completedAt := Some(s.clock), externalRef := Some(s.workers[mv.w].stage.ref))
  }

  /** What one step does to refund `r`: it appears as pending, is settled, or stays. */
  ghost predicate SettlesOrStays(s: State, mv: Move, s': State, r: Id) {
    && (r in s.refunds ==>
          r in s'.refunds && s'.refunds[r] == if Settles(s, mv, r) then SettledRow(s, mv, r) else s.refunds[r])
    && (r in s'.refunds && r !in s.refunds ==> s'.refunds[r].status == Pending)
  }

  lemma StepSettlesOrStays(s: State, mv: Move, s': State, r: Id)
    requires RowsOk(s) && Next(s, mv, s')
    ensures SettlesOrStays(s, mv, s', r)
  {
  }

  lemma {:induction false} SettledOnce(ss: seq<State>, mvs: seq<Move>, k: nat, r: Id)
    requires |ss| == |mvs| + 1 && k < |ss| && r !in ss[0].refunds
    requires forall n :: 0 <= n < |mvs| ==> SettlesOrStays(ss[n], mvs[n], ss[n + 1], r)
    requires forall n :: 0 <= n < |ss| && r in ss[n].refunds ==> ss[n].refunds[r].status != Failed
    ensures r in ss[k].refunds && ss[k].refunds[r].status == Refunded <==> exists j :: 0 <= j < k && Settles(ss[j], mvs[j], r)
    ensures r in ss[k].refunds ==> forall j :: 0 <= j < k && Settles(ss[j], mvs[j], r) ==> ss[k].refunds[r] == SettledRow(ss[j], mvs[j], r)
    ensures forall i, j :: 0 <= i < j < k && Settles(ss[i], mvs[i], r) ==> !Settles(ss[j], mvs[j], r)
  {
    if k > 0 {
      SettledOnce(ss, mvs, k - 1, r);
      assert SettlesOrStays(ss[k - 1], mvs[k - 1], ss[k], r);
    }
  }

  /** A refund is refunded iff some worker's move settled it, there is one such move at most, and the row
      is the one that move wrote: the old row with the status `refunded`, the clock at that move, and the
      reference of that worker's own call. */
  lemma RefundedIffSettled(ss: seq<State>, mvs: seq<Move>, k: nat, r: Id)
    requires IsRun(ss, mvs) && k < |ss| && r in ss[k].refunds
    ensures ss[k].refunds[r].status == Refunded <==> exists j :: 0 <= j < k && Settles(ss[j], mvs[j], r)
    ensures forall j :: 0 <= j < k && Settles(ss[j], mvs[j], r) ==> ss[k].refunds[r] == SettledRow(ss[j], mvs[j], r)
    ensures forall i, j :: 0 <= i < j < k && Settles(ss[i], mvs[i], r) ==> !Settles(ss[j], mvs[j], r)
  {
    forall n | 0 <= n < |mvs| ensures SettlesOrStays(ss[n], mvs[n], ss[n + 1], r) {
      RunKeepsInv(ss, mvs, n);
      StepSettlesOrStays(ss[n], mvs[n], ss[n + 1], r);
    }
    forall n | 0 <= n < |ss| && r in ss[n].refunds ensures ss[n].refunds[r].status != Failed {
      RunKeepsInv(ss, mvs, n);
      assert Receipted(ss[n].refunds[r], r, ss[n].calls);
    }
    SettledOnce(ss, mvs, k, r);
  }

  /** A refund leaves `pending` at most once: from then on its row, reference included, is frozen. */
  lemma {:induction false} RefundedRefundsAreFrozen(ss: seq<State>, mvs: seq<Move>, j: nat, k: nat, r: Id)
    requires IsRun(ss, mvs) && j <= k < |ss| && IsRefunded(ss[j].refunds, r)
    ensures IsRefunded(ss[k].refunds, r) && ss[k].refunds[r] == ss[j].refunds[r]
    decreases k
  {
    if j < k {
      RefundedRefundsAreFrozen(ss, mvs, j, k - 1, r);
      RefundedStaysNext(ss, mvs, k - 1, r);
    }
  }

  lemma RefundedStaysNext(ss: seq<State>, mvs: seq<Move>, k: nat, r: Id)
    requires IsRun(ss, mvs) && k < |mvs| && IsRefunded(ss[k].refunds, r)
    ensures IsRefunded(ss[k + 1].refunds, r) && ss[k + 1].refunds[r] == ss[k].refunds[r]
  {
    RunKeepsInv(ss, mvs, k);
    StepEvolves(ss[k], mvs[k], ss[k + 1]);
  }

  // ---------------------------------------------------------------- leases

  predicate Claims(mv: Move, e: Id) {
    mv.Poll? && e in mv.batch
  }

  /** The move returns event `e` to the pool. */
  ghost predicate Releases(s: State, mv: Move, e: Id) {
    mv.ReleaseClaim? && mv.applied && At(s, mv.w) && Head(s, mv.w) == e
  }

  predicate LeasedSince(s: State, e: Id, t: Time) {
    e in s.events && s.events[e].claimedAt.Some? && t <= s.events[e].claimedAt.value
  }

  lemma LeaseHolds(s: State, mv: Move, s': State, e: Id, t: Time)
    requires RowsOk(s) && Next(s, mv, s') && LeasedSince(s, e, t) && t <= s.clock && !Releases(s, mv, e)
    ensures LeasedSince(s', e, t) && t <= s'.clock
  {
  }

  lemma ClaimLeases(s: State, mv: Move, s': State, e: Id)
    requires Next(s, mv, s') && Claims(mv, e)
    ensures LeasedSince(s', e, s.clock) && s'.clock == s.clock
  {
  }

  lemma {:induction false} LeaseHoldsOver(ss: seq<State>, mvs: seq<Move>, i: nat, j: nat, e: Id)
    requires IsRun(ss, mvs) && i < j <= |mvs| && Claims(mvs[i], e)
    requires forall n :: i < n < j ==> !Releases(ss[n], mvs[n], e)
    ensures LeasedSince(ss[j], e, ss[i].clock) && ss[i].clock <= ss[j].clock
    decreases j
  {
    if i + 1 == j {
      ClaimLeases(ss[i], mvs[i], ss[j], e);
    } else {
      LeaseHoldsOver(ss, mvs, i, j - 1, e);
      LeaseHoldsNext(ss, mvs, j - 1, e, ss[i].clock);
    }
  }

  lemma LeaseHoldsNext(ss: seq<State>, mvs: seq<Move>, k: nat, e: Id, t: Time)
    requires IsRun(ss, mvs) && k < |mvs| && LeasedSince(ss[k], e, t) && t <= ss[k].clock && !Releases(ss[k], mvs[k], e)
    ensures LeasedSince(ss[k + 1], e, t) && t <= ss[k + 1].clock
  {
    RunKeepsInv(ss, mvs, k);
    LeaseHolds(ss[k], mvs[k], ss[k + 1], e, t);
  }

  /** Two claims of one event, by whichever workers, with no release of it in between are more than 30
      seconds apart. */
  lemma ClaimsAreALeaseApart(ss: seq<State>, mvs: seq<Move>, i: nat, j: nat, e: Id)
    requires IsRun(ss, mvs) && i < j < |mvs| && Claims(mvs[i], e) && Claims(mvs[j], e)
    requires forall n :: i < n < j ==> !Releases(ss[n], mvs[n], e)
    ensures ss[j].clock > ss[i].clock + 30_000_000
  {
    LeaseHoldsOver(ss, mvs, i, j, e);
    assert Next(ss[j], mvs[j], ss[j + 1]);
  }

  /** What a move that does not claim event `e` does to its claim. */
  lemma ClaimAfter(s: State, mv: Move, s': State, e: Id)
    requires Next(s, mv, s') && e in s.events && !Claims(mv, e)
    ensures e in s'.events && (s.events[e].processedAt.Some? ==> s'.events[e].processedAt.Some?)
    ensures s'.events[e].claimedAt ==
            if Releases(s, mv, e) && s.events[e].processedAt.None? then None else s.events[e].claimedAt
  {
  }

  /** Between moves `i` and `k` a release of event `e` was applied while it was unprocessed. */
  ghost predicate ReleasedSince(ss: seq<State>, mvs: seq<Move>, i: nat, k: nat, e: Id)
    requires |ss| == |mvs| + 1 && k <= |mvs|
  {
    exists n :: i < n < k && Releases(ss[n], mvs[n], e) && e in ss[n].events && ss[n].events[e].processedAt.None?
  }

  /** As long as nobody claims the event again, it bears the claim of move `i` unless it was released since. */
  lemma {:induction false} ClaimSince(ss: seq<State>, mvs: seq<Move>, i: nat, k: nat, e: Id)
    requires IsRun(ss, mvs) && i < k <= |mvs| && Claims(mvs[i], e) && forall n :: i < n < k ==> !Claims(mvs[n], e)
    ensures e in ss[k].events
    ensures ss[k].events[e].claimedAt == if ReleasedSince(ss, mvs, i, k, e) then None else Some(ss[i].clock)
    decreases k
  {
    if i + 1 == k {
      ClaimStamps(ss[i], mvs[i], ss[k], e);
    } else {
      ClaimSince(ss, mvs, i, k - 1, e);
      ClaimAfterNext(ss, mvs, k - 1, e);
      ReleasedSinceNext(ss, mvs, i, k - 1, e);
    }
  }

  lemma ClaimAfterNext(ss: seq<State>, mvs: seq<Move>, k: nat, e: Id)
    requires IsRun(ss, mvs) && k < |mvs| && e in ss[k].events && !Claims(mvs[k], e)
    ensures e in ss[k + 1].events
    ensures ss[k + 1].events[e].claimedAt ==
            if Releases(ss[k], mvs[k], e) && ss[k].events[e].processedAt.None? then None else ss[k].events[e].claimedAt
  {
    ClaimAfter(ss[k], mvs[k], ss[k + 1], e);
  }

  lemma ClaimStamps(s: State, mv: Move, s': State, e: Id)
    requires Next(s, mv, s') && Claims(mv, e)
    ensures e in s'.events && s'.events[e].claimedAt == Some(s.clock)
  {
  }

  lemma ReleasedSinceNext(ss: seq<State>, mvs: seq<Move>, i: nat, k: nat, e: Id)
    requires |ss| == |mvs| + 1 && i < k < |mvs| && e in ss[k].events
    ensures ReleasedSince(ss, mvs, i, k + 1, e) <==>
            ReleasedSince(ss, mvs, i, k, e) || (Releases(ss[k], mvs[k], e) && ss[k].events[e].processedAt.None?)
  {
    if ReleasedSince(ss, mvs, i, k, e) {
      var n :| i < n < k && Releases(ss[n], mvs[n], e) && e in ss[n].events && ss[n].events[e].processedAt.None?;
    }
  }

  /** Some worker's next poll can take the event. */
  ghost predicate CanClaim(s: State, e: Id) {
    exists w, s' :: Next(s, Poll(w, [e], true), s')
  }

  lemma {:induction false} SomeNumberIsFree(taken: set<nat>) returns (n: nat)
    ensures forall k :: k in taken ==> k < n
    decreases taken
  {
    if taken == {} {
      n := 0;
    } else {
      var k :| k in taken;
      var m := SomeNumberIsFree(taken - {k});
      n := if m > k then m else k + 1;
      assert forall j :: j in taken ==> j == k || j in taken - {k};
    }
  }

  lemma CanClaimIff(s: State, e: Id)
    ensures CanClaim(s, e) <==> e in s.events && Claimable(s.events[e], s.clock)
  {
    if e in s.events && Claimable(s.events[e], s.clock) {
      var w := SomeNumberIsFree(s.workers.Keys);
      var s' := s.(events := Claimed(s.events, (set i | i in [e]), s.clock), workers := s.workers[w := Worker([e], Start)]);
      assert Next(s, Poll(w, [e], true), s');
    }
    if CanClaim(s, e) {
      var w, s' :| Next(s, Poll(w, [e], true), s');
      assert e in [e];
    }
  }

  /** An event whose last claim is move `i` can be claimed again iff it is still unprocessed and either it
      was released, by whichever worker, since, or more than 30 seconds have passed. */
  lemma ReclaimableIff(ss: seq<State>, mvs: seq<Move>, i: nat, e: Id)
    requires IsRun(ss, mvs) && i < |mvs| && Claims(mvs[i], e) && forall n :: i < n < |mvs| ==> !Claims(mvs[n], e)
    ensures e in ss[|mvs|].events
    ensures CanClaim(ss[|mvs|], e) <==>
            && ss[|mvs|].events[e].processedAt.None?
            && (ReleasedSince(ss, mvs, i, |mvs|, e) || ss[|mvs|].clock > ss[i].clock + 30_000_000)
  {
    ClaimSince(ss, mvs, i, |mvs|, e);
    CanClaimIff(ss[|mvs|], e);
  }

  lemma {:induction false} UnclaimedSoFar(ss: seq<State>, mvs: seq<Move>, k: nat, e: Id)
    requires IsRun(ss, mvs) && k < |ss| && e in ss[k].events && forall n :: 0 <= n < k ==> !Claims(mvs[n], e)
    ensures ss[k].events[e].claimedAt.None?
  {
    if k > 0 && e in ss[k - 1].events {
      UnclaimedSoFar(ss, mvs, k - 1, e);
      ClaimAfterNext(ss, mvs, k - 1, e);
    } else if k > 0 {
      NewEventsAreUnclaimed(ss[k - 1], mvs[k - 1], ss[k], e);
    }
  }

  lemma NewEventsAreUnclaimed(s: State, mv: Move, s': State, e: Id)
    requires Next(s, mv, s') && e in s'.events && e !in s.events
    ensures s'.events[e].claimedAt.None?
  {
  }

  /** An event that nobody has claimed yet can be claimed iff it is unprocessed. */
  lemma UnclaimedIsClaimable(ss: seq<State>, mvs: seq<Move>, e: Id)
    requires IsRun(ss, mvs) && e in ss[|mvs|].events && forall n :: 0 <= n < |mvs| ==> !Claims(mvs[n], e)
    ensures CanClaim(ss[|mvs|], e) <==> ss[|mvs|].events[e].processedAt.None?
  {
    UnclaimedSoFar(ss, mvs, |mvs|, e);
    CanClaimIff(ss[|mvs|], e);
  }

  // ---------------------------------------------------------------- a run in which a lease is not exclusive

  function Scene(clock: Time, claimed: Option<Time>, workers: map<nat, Worker>, calls: seq<Call>): State {
    State(map[1 := Refund(7, Pending, 0, None, None)],
          map[1 := Event(REFUND_REQUESTED, 7, RefundId(1), 0, None, claimed)], clock, workers, calls)
  }

  const FRESH := Worker([1], Start)
  const CALLING := Worker([1], Called("a"))
  const ERRING := Worker([1], Erring)
  const DONE := Worker([], Start)

  function SceneAt(k: nat): State {
    var late, calls := LEASE + 1, [Call(1, "a")];
    if k == 0 then State(map[], map[], 0, map[], [])
    else if k == 1 then Scene(0, None, map[], [])
    else if k == 2 then Scene(0, Some(0), map[1 := FRESH], [])
    else if k == 3 then Scene(0, Some(0), map[1 := CALLING], calls)
    else if k == 4 then Scene(late, Some(0), map[1 := CALLING], calls)
    else if k == 5 then Scene(late, Some(late), map[1 := CALLING, 2 := FRESH], calls)
    else if k == 6 then Scene(late, Some(late), map[1 := ERRING, 2 := FRESH], calls)
    else if k == 7 then Scene(late, None, map[1 := DONE, 2 := FRESH], calls)
    else Scene(late, Some(late), map[1 := DONE, 2 := FRESH, 3 := FRESH], calls)
  }

  const STORY := [Cancel(7, 0, 1, 1), Poll(1, [1], true), CallGateway(1, "a"), Tick(LEASE + 1), Poll(2, [1], true),
                  MarkRefund(1, false, false), ReleaseClaim(1, true), Poll(3, [1], true)]

  lemma StoryBegins(k: nat)
    requires k < 4
    ensures Next(SceneAt(k), STORY[k], SceneAt(k + 1))
  {
  }

  lemma StoryTurns(k: nat)
    requires 4 <= k < 6
    ensures Next(SceneAt(k), STORY[k], SceneAt(k + 1))
  {
  }

  lemma StoryEnds(k: nat)
    requires 6 <= k < 8
    ensures Next(SceneAt(k), STORY[k], SceneAt(k + 1))
  {
    assert ERRING.queue[1..] == DONE.queue;
  }

  /** A lease is not exclusive without the condition on releases: ReleaseClaim is not tied to the
      claim's owner, so a worker whose lease lapsed can hand another worker's fresh claim to a third. */
  lemma LapsedOwnerCanReleaseAnothersClaim() returns (ss: seq<State>, mvs: seq<Move>, i: nat, j: nat)
    ensures IsRun(ss, mvs) && i < j < |mvs|
    ensures mvs[i] == Poll(2, [1], true) && mvs[j] == Poll(3, [1], true) && ss[i].clock == ss[j].clock
    ensures var last := ss[|mvs|].workers;
            2 in last && 3 in last && last[2].queue == [1] && last[3].queue == [1]
  {
    ss, mvs, i, j := seq(9, k requires 0 <= k < 9 => SceneAt(k)), STORY, 4, 7;
    forall k | 0 <= k < |mvs| ensures Next(ss[k], mvs[k], ss[k + 1]) {
      if k < 4 {
        StoryBegins(k);
      } else if k < 6 {
        StoryTurns(k);
      } else {
        StoryEnds(k);
      }
    }
  }
}
