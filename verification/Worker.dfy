/**
 One worker draining the outbox: PollUnprocessed and processBatch as the loops they are, with
 the outcome of every database call given by `faults`, and the drain rate of failure-free ticks.
 */
module WorkerModel {
  import opened Options
  import opened Tables
  import opened Outbox
  import opened Paths

  /** What goes wrong while one event is handled: nothing; MarkRefundStatus reports an error (applied
      or not) and ReleaseClaim then works or not; or MarkProcessed reports an error (applied or not). */
  datatype Fault = Fine | RefundError(applied: bool, released: bool) | ProcessedError(applied: bool)

  datatype Desk = Desk(refunds: map<Id, Refund>, events: map<Id, Event>, calls: seq<Call>)

  // ---------------------------------------------------------------- specification

  /** One iteration of processBatch's loop (main.go:99-142). */
  function Handled(d: Desk, e: Id, now: Time, ref: string, f: Fault): Desk
    requires e in d.events
  {
    var events' := if f == ProcessedError(false) then d.events else Processed(d.events, e, now);
    if !IsRefundEvent(d.events[e]) then d.(events := events')
    else
      var r := d.events[e].payload.id;
      var called := d.(calls := d.calls + [Call(r, ref)]);
      if f.RefundError? then
        called.(refunds := if f.applied then MarkedRefunded(d.refunds, r, ref, now) else d.refunds,
                events := if f.released then Released(d.events, e) else d.events)
      else
        called.(refunds := MarkedRefunded(d.refunds, r, ref, now), events := events')
  }

  lemma HandledKeepsRows(d: Desk, e: Id, now: Time, ref: string, f: Fault)
    requires e in d.events
    ensures Handled(d, e, now, ref, f).events.Keys == d.events.Keys
    ensures Handled(d, e, now, ref, f).refunds.Keys == d.refunds.Keys
  {
  }

  function HandledAll(d: Desk, batch: seq<Id>, now: Time, refs: Id -> string, faults: Id -> Fault): (d': Desk)
    requires forall e :: e in batch ==> e in d.events
    ensures d'.events.Keys == d.events.Keys && d'.refunds.Keys == d.refunds.Keys
  {
    if batch == [] then d
    else
      var n := |batch| - 1;
      HandledKeepsRows(HandledAll(d, batch[..n], now, refs, faults), batch[n], now, refs(batch[n]), faults(batch[n]));
      Handled(HandledAll(d, batch[..n], now, refs, faults), batch[n], now, refs(batch[n]), faults(batch[n]))
  }

  function Ids(batch: seq<Id>): set<Id> {
    set e | e in batch
  }

  ghost predicate Distinct(batch: seq<Id>) {
    forall i, j :: 0 <= i < j < |batch| ==> batch[i] != batch[j]
  }

  function ClaimableIds(es: map<Id, Event>, now: Time): set<Id> {
    set e | e in es && Claimable(es[e], now)
  }

  /** The batches that PollUnprocessed may claim: as many claimable events as the limit allows, and
      none of those left behind is older than one taken (outbox.go:57-61). */
  ghost predicate IsBatch(es: map<Id, Event>, now: Time, limit: nat, batch: seq<Id>) {
    && Distinct(batch)
    && (forall e :: e in batch ==> e in ClaimableIds(es, now))
    && |batch| <= limit
    && (|batch| < limit ==> forall e :: e in ClaimableIds(es, now) ==> e in batch)
    && (forall e, l :: e in batch && l in ClaimableIds(es, now) && l !in batch ==> es[e].createdAt <= es[l].createdAt)
  }

  lemma {:induction false} OldestExists(es: map<Id, Event>, ids: set<Id>) returns (o: Id)
    requires ids != {} && forall e :: e in ids ==> e in es
    ensures o in ids && forall e :: e in ids ==> es[o].createdAt <= es[e].createdAt
    decreases ids
  {
    o :| o in ids;
    var rest := ids - {o};
    if rest != {} {
      var p := OldestExists(es, rest);
      if es[p].createdAt < es[o].createdAt {
        o := p;
      }
    }
  }

  class OutboxStore {
    var refunds: map<Id, Refund>
    var events: map<Id, Event>
    var calls: seq<Call>

    constructor (refunds: map<Id, Refund>, events: map<Id, Event>)
      ensures View() == Desk(refunds, events, [])
    {
      this.refunds, this.events, calls := refunds, events, [];
    }

    function View(): Desk
      reads this
    {
      Desk(refunds, events, calls)
    }

    /** PollUnprocessed (outbox.go:53-83) with no other worker's locks to skip. */
    method PollUnprocessed(now: Time, limit: nat) returns (batch: seq<Id>)
      modifies this
      ensures IsBatch(old(events), now, limit, batch)
      ensures View() == old(View()).(events := Claimed(old(events), Ids(batch), now))
      ensures events.Keys == old(events).Keys && refunds == old(refunds) && calls == old(calls)
      ensures forall e :: e in old(events) ==>
                events[e] == if e in batch then old(events)[e].(claimedAt := Some(now)) else old(events)[e]
      ensures |batch| == limit || forall e :: e in events && events[e].processedAt.None? ==>
                events[e].claimedAt.Some? && now - 30_000_000 <= events[e].claimedAt.value
      ensures forall e, l | e in batch && l in events && l !in batch && events[l].processedAt.None? ::
                events[l].claimedAt.None? || events[l].claimedAt.value < now - 30_000_000 ==>
                events[e].createdAt <= events[l].createdAt
    {
      batch := [];
      var rest := ClaimableIds(events, now);
      while |batch| < limit && rest != {}
        invariant Distinct(batch) && |batch| <= limit
        invariant forall e :: e in ClaimableIds(events, now) <==> e in batch || e in rest
        invariant forall e :: e in rest ==> e !in batch
        invariant forall e, l :: e in batch && l in rest ==> events[e].createdAt <= events[l].createdAt
        invariant View() == old(View())
        decreases rest
      {
        ghost var o := OldestExists(events, rest);
        var e :| e in rest && forall l :: l in rest ==> events[e].createdAt <= events[l].createdAt;
        batch := batch + [e];
        rest := rest - {e};
      }
      events := Claimed(events, Ids(batch), now);
    }

    /** MarkRefundStatus (refunds.go:62-71) as the worker calls it: a pending refund is refunded, any other
        is left as it is. */
    method MarkRefundStatus(now: Time, r: Id, ref: string)
      modifies this
      ensures View() == old(View()).(refunds := MarkedRefunded(old(refunds), r, ref, now))
      ensures refunds.Keys == old(refunds).Keys
      ensures r in old(refunds) && old(refunds)[r].status == Pending ==>
                refunds[r] == Refund(old(refunds)[r].bookingId, Refunded, old(refunds)[r].requestedAt, Some(now), Some(ref))
      ensures forall q :: q in old(refunds) && (q != r || old(refunds)[q].status != Pending) ==> refunds[q] == old(refunds)[q]
    {
      if r in refunds && refunds[r].status == Pending {
        refunds := refunds[r := refunds[r].(status := Refunded, completedAt := Some(now), externalRef := Some(ref))];
      }
    }

    method MarkProcessed(now: Time, e: Id)
      modifies this
      ensures View() == old(View()).(events := Processed(old(events), e, now))
      ensures e in old(events) ==> e in events && events[e].processedAt.Some? && events[e].claimedAt == old(events)[e].claimedAt
    {
      if e in events && events[e].processedAt.None? {
        events := events[e := events[e].(processedAt := Some(now))];
      }
    }

    method ReleaseClaim(e: Id)
      modifies this
      ensures View() == old(View()).(events := Released(old(events), e))
      ensures e in old(events) && old(events)[e].processedAt.None? ==> e in events && forall t :: Claimable(events[e], t)
    {
      if e in events && events[e].processedAt.None? {
        events := events[e := events[e].(claimedAt := None)];
      }
    }

    /** The body of processBatch's loop for one event. */
    method HandleEvent(now: Time, e: Id, ref: string, f: Fault)
      requires e in events
      modifies this
      ensures View() == Handled(old(View()), e, now, ref, f)
    {
      if events[e].eventType != REFUND_REQUESTED || events[e].payload.Unparseable? {
        if f != ProcessedError(false) {
          MarkProcessed(now, e);
        }
        return;
      }
      var r := events[e].payload.id;
      calls := calls + [Call(r, ref)];
      if !f.RefundError? || f.applied {
        MarkRefundStatus(now, r, ref);
      }
      if f.RefundError? {
        if f.released {
          ReleaseClaim(e);
        }
        return;
      }
      if f != ProcessedError(false) {
        MarkProcessed(now, e);
      }
    }

    /** processBatch (main.go:93-143) after a successful poll. */
    method ProcessBatch(now: Time, limit: nat, refs: Id -> string, faults: Id -> Fault) returns (batch: seq<Id>)
      modifies this
      ensures IsBatch(old(events), now, limit, batch)
      ensures forall e :: e in batch ==> e in old(events)
      ensures View() == HandledAll(old(View()).(events := Claimed(old(events), Ids(batch), now)), batch, now, refs, faults)
    {
      batch := PollUnprocessed(now, limit);
      ghost var claimed := View();
      assert forall e :: e in batch ==> e in claimed.events;
      var i := 0;
      while i < |batch|
        invariant 0 <= i <= |batch|
        invariant forall e :: e in batch[..i] ==> e in claimed.events
        invariant View() == HandledAll(claimed, batch[..i], now, refs, faults)
      {
        assert batch[..i + 1][..i] == batch[..i] && batch[i] in batch;
        HandleEvent(now, batch[i], refs(batch[i]), faults(batch[i]));
        i := i + 1;
      }
      assert batch[..i] == batch;
    }
  }

  // ---------------------------------------------------------------- draining

  function Unprocessed(es: map<Id, Event>): set<Id> {
    set e | e in es && es[e].processedAt.None?
  }

  /** Refund `r` was pending as `p` and is refunded as `q`: stamped `now`, with the reference of a call
      made for it, and otherwise the same. */
  predicate PaidBack(r: Id, p: Refund, q: Refund, now: Time, calls: seq<Call>) {
    && p.status == Pending && q.status == Refunded && q.completedAt == Some(now)
    && q.externalRef.Some? && Call(r, q.externalRef.value) in calls
    && q.bookingId == p.bookingId && q.requestedAt == p.requestedAt
  }

  /** What handling a batch at `now` without faults leaves: its events processed and their pending refunds
      refunded, every other event untouched, and every refund either untouched or paid back. */
  ghost predicate CleanlyHandled(d: Desk, batch: seq<Id>, now: Time, d': Desk) {
    && d'.events.Keys == d.events.Keys && d'.refunds.Keys == d.refunds.Keys && d.calls <= d'.calls
    && (forall e :: e in d.events && e !in batch ==> d'.events[e] == d.events[e])
    && (forall e :: e in d.events && e in batch ==> d'.events[e].processedAt.Some? && SameContent(d.events[e], d'.events[e]))
    && (forall e :: e in d.events && e in batch && IsRefundEvent(d.events[e]) && d.events[e].payload.id in d.refunds ==>
          d'.refunds[d.events[e].payload.id].status != Pending)
    && (forall r :: r in d.refunds ==>
          d'.refunds[r] == d.refunds[r] || PaidBack(r, d.refunds[r], d'.refunds[r], now, d'.calls))
  }

  lemma CleanStepPays(d: Desk, batch: seq<Id>, d': Desk, e: Id, now: Time, ref: string, r: Id)
    requires CleanlyHandled(d, batch, now, d') && e in d.events && r in d.refunds
    ensures var d'' := Handled(d', e, now, ref, Fine);
            d''.refunds[r] == d.refunds[r] || PaidBack(r, d.refunds[r], d''.refunds[r], now, d''.calls)
  {
    var d'' := Handled(d', e, now, ref, Fine);
    assert d'.calls <= d''.calls;
    if IsRefundEvent(d'.events[e]) && d'.events[e].payload.id == r {
      assert d''.calls[|d'.calls|] == Call(r, ref);
    }
  }

  lemma CleanStepProcesses(d: Desk, batch: seq<Id>, d': Desk, e: Id, now: Time, ref: string, i: Id)
    requires CleanlyHandled(d, batch, now, d') && e in d.events && i in d.events
    ensures var d'' := Handled(d', e, now, ref, Fine);
            if i in batch + [e] then d''.events[i].processedAt.Some? && SameContent(d.events[i], d''.events[i])
            else d''.events[i] == d.events[i]
  {
    assert i in batch + [e] <==> i in batch || i == e;
  }

  lemma CleanStep(d: Desk, batch: seq<Id>, d': Desk, e: Id, now: Time, ref: string)
    requires CleanlyHandled(d, batch, now, d') && e in d.events
    ensures CleanlyHandled(d, batch + [e], now, Handled(d', e, now, ref, Fine))
  {
    var d'' := Handled(d', e, now, ref, Fine);
    forall i | i in d.events
      ensures if i in batch + [e] then d''.events[i].processedAt.Some? && SameContent(d.events[i], d''.events[i])
              else d''.events[i] == d.events[i]
    {
      CleanStepProcesses(d, batch, d', e, now, ref, i);
    }
    forall r | r in d.refunds
      ensures d''.refunds[r] == d.refunds[r] || PaidBack(r, d.refunds[r], d''.refunds[r], now, d''.calls)
    {
      CleanStepPays(d, batch, d', e, now, ref, r);
    }
  }

  lemma {:induction false} CleanBatch(d: Desk, batch: seq<Id>, now: Time, refs: Id -> string)
    requires forall e :: e in batch ==> e in d.events
    ensures CleanlyHandled(d, batch, now, HandledAll(d, batch, now, refs, _ => Fine))
  {
    if batch != [] {
      var n := |batch| - 1;
      CleanBatch(d, batch[..n], now, refs);
      CleanStep(d, batch[..n], HandledAll(d, batch[..n], now, refs, _ => Fine), batch[n], now, refs(batch[n]));
      assert batch[..n] + [batch[n]] == batch;
    }
  }

  /** A failure-free tick at `now` that claims and handles `batch`. */
  ghost predicate CleanTick(d: Desk, now: Time, limit: nat, batch: seq<Id>, refs: Id -> string, d': Desk) {
    && IsBatch(d.events, now, limit, batch)
    && (forall e :: e in batch ==> e in d.events)
    && d' == HandledAll(d.(events := Claimed(d.events, Ids(batch), now)), batch, now, refs, _ => Fine)
  }

  /** No unprocessed event was claimed within the last 30 seconds. */
  ghost predicate LeaseFree(es: map<Id, Event>, now: Time) {
    forall e :: e in es && es[e].processedAt.None? && es[e].claimedAt.Some? ==> es[e].claimedAt.value + 30_000_000 < now
  }

  /** Every pending refund still has an unprocessed event that names it. */
  ghost predicate PendingAnnounced(d: Desk) {
    forall r :: r in d.refunds && d.refunds[r].status == Pending ==>
      exists e :: e in Unprocessed(d.events) && IsRefundEvent(d.events[e]) && d.events[e].payload.id == r
  }

  lemma TickEffect(d: Desk, now: Time, limit: nat, batch: seq<Id>, refs: Id -> string, d': Desk)
    requires CleanTick(d, now, limit, batch, refs, d')
    ensures CleanlyHandled(d, batch, now, d')
  {
    CleanBatch(d.(events := Claimed(d.events, Ids(batch), now)), batch, now, refs);
  }

  lemma {:induction false} BatchSize(batch: seq<Id>)
    requires Distinct(batch)
    ensures |Ids(batch)| == |batch|
  {
    if batch == [] {
      assert Ids(batch) == {};
    } else {
      var n := |batch| - 1;
      BatchSize(batch[..n]);
      assert batch[n] !in batch[..n];
      assert Ids(batch) == Ids(batch[..n]) + {batch[n]};
    }
  }

  lemma TickTakes(d: Desk, now: Time, limit: nat, batch: seq<Id>, refs: Id -> string, d': Desk)
    requires CleanTick(d, now, limit, batch, refs, d') && LeaseFree(d.events, now)
    ensures Ids(batch) <= Unprocessed(d.events) && Unprocessed(d'.events) == Unprocessed(d.events) - Ids(batch)
    ensures |batch| < limit ==> Ids(batch) == Unprocessed(d.events)
  {
    TickEffect(d, now, limit, batch, refs, d');
    assert Unprocessed(d.events) == ClaimableIds(d.events, now);
  }

  /** Each failure-free tick lowers the number of unprocessed events by min(limit, backlog),
      dead-lettered events included. */
  lemma TickDrains(d: Desk, now: Time, limit: nat, batch: seq<Id>, refs: Id -> string, d': Desk)
    requires CleanTick(d, now, limit, batch, refs, d') && LeaseFree(d.events, now)
    ensures var u := |Unprocessed(d.events)|;
            |Unprocessed(d'.events)| == if u <= limit then 0 else u - limit
  {
    TickTakes(d, now, limit, batch, refs, d');
    BatchSize(batch);
    SizeLess(Unprocessed(d.events), Ids(batch), limit);
  }

  lemma SizeLess(all: set<Id>, taken: set<Id>, limit: nat)
    requires taken <= all && |taken| <= limit && (|taken| < limit ==> taken == all)
    ensures |all - taken| == if |all| <= limit then 0 else |all| - limit
  {
    assert all == (all - taken) + taken;
    assert taken == all ==> all - taken == {};
  }

  lemma TickKeepsOrder(d: Desk, now: Time, limit: nat, batch: seq<Id>, refs: Id -> string, d': Desk, later: Time)
    requires CleanTick(d, now, limit, batch, refs, d') && LeaseFree(d.events, now) && PendingAnnounced(d) && now <= later
    ensures LeaseFree(d'.events, later) && PendingAnnounced(d')
  {
    TickEffect(d, now, limit, batch, refs, d');
    forall r | r in d'.refunds && d'.refunds[r].status == Pending
      ensures exists e :: e in Unprocessed(d'.events) && IsRefundEvent(d'.events[e]) && d'.events[e].payload.id == r
    {
      var e :| e in Unprocessed(d.events) && IsRefundEvent(d.events[e]) && d.events[e].payload.id == r;
      assert e !in batch;
      assert e in Unprocessed(d'.events) && IsRefundEvent(d'.events[e]) && d'.events[e].payload.id == r;
    }
  }

  /** A run of failure-free ticks at non-decreasing times. */
  ghost predicate CleanTicks(ds: seq<Desk>, nows: seq<Time>, limit: nat, batches: seq<seq<Id>>, refs: Id -> string) {
    && |ds| == |nows| + 1 == |batches| + 1
    && (forall k :: 0 <= k < |nows| ==> CleanTick(ds[k], nows[k], limit, batches[k], refs, ds[k + 1]))
    && (forall k :: 0 < k < |nows| ==> nows[k - 1] <= nows[k])
  }

  function Less(u: nat, n: nat): nat {
    if u <= n then 0 else u - n
  }

  lemma OneBatchLess(u: nat, k: nat, limit: nat)
    requires k > 0
    ensures Less(Less(u, (k - 1) * limit), limit) == Less(u, k * limit)
  {
    assert k * limit == (k - 1) * limit + limit;
  }

  lemma {:induction false} BacklogAfter(ds: seq<Desk>, nows: seq<Time>, limit: nat, batches: seq<seq<Id>>, refs: Id -> string, k: nat)
    requires CleanTicks(ds, nows, limit, batches, refs) && k < |ds| && |nows| > 0
    requires LeaseFree(ds[0].events, nows[0]) && PendingAnnounced(ds[0])
    ensures PendingAnnounced(ds[k]) && (k < |nows| ==> LeaseFree(ds[k].events, nows[k]))
    ensures var u := |Unprocessed(ds[0].events)|;
            |Unprocessed(ds[k].events)| == if u <= k * limit then 0 else u - k * limit
  {
    if k > 0 {
      BacklogAfter(ds, nows, limit, batches, refs, k - 1);
      assert CleanTick(ds[k - 1], nows[k - 1], limit, batches[k - 1], refs, ds[k]);
      TickDrains(ds[k - 1], nows[k - 1], limit, batches[k - 1], refs, ds[k]);
      TickKeepsOrder(ds[k - 1], nows[k - 1], limit, batches[k - 1], refs, ds[k], if k < |nows| then nows[k] else nows[k - 1]);
      OneBatchLess(|Unprocessed(ds[0].events)|, k, limit);
    }
  }

  lemma CeilingCovers(u: nat, n: nat, k: nat)
    requires n > 0 && k >= (u + n - 1) / n
    ensures u <= k * n
  {
    var q, r := (u + n - 1) / n, (u + n - 1) % n;
    assert u + n - 1 == q * n + r && r <= n - 1;
    assert (k - q) * n >= 0;
    assert k * n == q * n + (k - q) * n;
  }

  /** Refund `r` is as it was, or was paid back in one of the first `k` ticks. */
  ghost predicate UntouchedOrPaid(ds: seq<Desk>, nows: seq<Time>, k: nat, r: Id)
    requires |ds| == |nows| + 1 && k < |ds| && r in ds[0].refunds
  {
    && r in ds[k].refunds
    && (ds[k].refunds[r] == ds[0].refunds[r]
        || exists n :: 0 <= n < k && PaidBack(r, ds[0].refunds[r], ds[k].refunds[r], nows[n], ds[k].calls))
  }

  lemma {:induction false} TicksPay(ds: seq<Desk>, nows: seq<Time>, limit: nat, batches: seq<seq<Id>>, refs: Id -> string, k: nat, r: Id)
    requires CleanTicks(ds, nows, limit, batches, refs) && k < |ds| && r in ds[0].refunds
    ensures UntouchedOrPaid(ds, nows, k, r)
  {
    if k > 0 {
      TicksPay(ds, nows, limit, batches, refs, k - 1, r);
      assert CleanTick(ds[k - 1], nows[k - 1], limit, batches[k - 1], refs, ds[k]);
      TickEffect(ds[k - 1], nows[k - 1], limit, batches[k - 1], refs, ds[k]);
      OneMoreTickPays(ds, nows, batches[k - 1], k, r);
    }
  }

  lemma OneMoreTickPays(ds: seq<Desk>, nows: seq<Time>, batch: seq<Id>, k: nat, r: Id)
    requires |ds| == |nows| + 1 && 0 < k < |ds| && r in ds[0].refunds && UntouchedOrPaid(ds, nows, k - 1, r)
    requires CleanlyHandled(ds[k - 1], batch, nows[k - 1], ds[k])
    ensures UntouchedOrPaid(ds, nows, k, r)
  {
    var p, q := ds[k - 1].refunds[r], ds[k].refunds[r];
    if q != p {
      assert PaidBack(r, p, q, nows[k - 1], ds[k].calls);
    } else if p != ds[0].refunds[r] {
      var n :| 0 <= n < k - 1 && PaidBack(r, ds[0].refunds[r], p, nows[n], ds[k - 1].calls);
      assert Call(r, p.externalRef.value) in ds[k].calls;
      assert PaidBack(r, ds[0].refunds[r], q, nows[n], ds[k].calls);
    }
  }

  /** Ceil(U / N) failure-free ticks of batch size N leave no unprocessed event, and have refunded every
      refund that was pending, each with the reference of a gateway call made for it and the instant of
      one of the ticks; refunds that were not pending stay as they were. */
  lemma OutboxDrains(ds: seq<Desk>, nows: seq<Time>, limit: nat, batches: seq<seq<Id>>, refs: Id -> string)
    requires CleanTicks(ds, nows, limit, batches, refs) && |nows| > 0 && limit > 0
    requires LeaseFree(ds[0].events, nows[0]) && PendingAnnounced(ds[0])
    requires |nows| >= (|Unprocessed(ds[0].events)| + limit - 1) / limit
    ensures Unprocessed(ds[|nows|].events) == {}
    ensures forall r :: r in ds[0].refunds ==>
              && r in ds[|nows|].refunds
              && if ds[0].refunds[r].status == Pending then
                   exists n :: 0 <= n < |nows| && PaidBack(r, ds[0].refunds[r], ds[|nows|].refunds[r], nows[n], ds[|nows|].calls)
                 else ds[|nows|].refunds[r] == ds[0].refunds[r]
  {
    BacklogAfter(ds, nows, limit, batches, refs, |nows|);
    CeilingCovers(|Unprocessed(ds[0].events)|, limit, |nows|);
    var last := ds[|nows|];
    assert PendingAnnounced(last) && Unprocessed(last.events) == {};
    forall r | r in ds[0].refunds
      ensures r in last.refunds
      ensures if ds[0].refunds[r].status == Pending then
                exists n :: 0 <= n < |nows| && PaidBack(r, ds[0].refunds[r], last.refunds[r], nows[n], last.calls)
              else last.refunds[r] == ds[0].refunds[r]
    {
      TicksPay(ds, nows, limit, batches, refs, |nows|, r);
    }
  }

  /** An event whose refund could not be marked and whose claim was returned can be claimed at once, by any
      later poll. */
  lemma FailedEventIsRetried(d: Desk, e: Id, now: Time, ref: string, applied: bool, later: Time)
    requires e in d.events && IsRefundEvent(d.events[e]) && d.events[e].processedAt.None?
    ensures var d' := Handled(d, e, now, ref, RefundError(applied, true));
            e in d'.events && Claimable(d'.events[e], later) && SameContent(d.events[e], d'.events[e])
  {
  }

  // ---------------------------------------------------------------- the loop is a path of the protocol

  function DeskOf(s: State): Desk {
    Desk(s.refunds, s.events, s.calls)
  }

  /** Worker `w` is about to start on the events `queue`. */
  ghost predicate Facing(s: State, w: nat, queue: seq<Id>) {
    w in s.workers && s.workers[w] == Worker(queue, Start)
  }

  lemma DeadLetterIsAPath(s: State, w: nat, queue: seq<Id>, f: Fault) returns (ss: seq<State>, mvs: seq<Move>)
    requires queue != [] && Facing(s, w, queue) && queue[0] in s.events && !IsRefundEvent(s.events[queue[0]])
    ensures IsPath(Next, ss, mvs) && ss[0] == s && Facing(ss[|mvs|], w, queue[1..]) && ss[|mvs|].clock == s.clock
    ensures DeskOf(ss[|mvs|]) == Handled(DeskOf(s), queue[0], s.clock, "", f)
  {
    var applied := f != ProcessedError(false);
    var s1 := Staged(s, w, DeadLetter);
    var s2 := Dequeued(s1, w).(events := if applied then Processed(s.events, queue[0], s.clock) else s.events);
    assert Next(s, Discard(w), s1);
    assert Next(s1, MarkProcessed(w, applied), s2);
    ss, mvs := [s, s1, s2], [Discard(w), MarkProcessed(w, applied)];
  }

  lemma RefundIsAPath(s: State, w: nat, queue: seq<Id>, ref: string, f: Fault) returns (ss: seq<State>, mvs: seq<Move>)
    requires queue != [] && Facing(s, w, queue) && queue[0] in s.events && IsRefundEvent(s.events[queue[0]])
    ensures IsPath(Next, ss, mvs) && ss[0] == s && Facing(ss[|mvs|], w, queue[1..]) && ss[|mvs|].clock == s.clock
    ensures DeskOf(ss[|mvs|]) == Handled(DeskOf(s), queue[0], s.clock, ref, f)
  {
    var e := queue[0];
    var r := s.events[e].payload.id;
    var s1 := Staged(s, w, Called(ref)).(calls := s.calls + [Call(r, ref)]);
    assert Next(s, CallGateway(w, ref), s1);
    var marks := if f.RefundError? then MarkRefund(w, f.applied, false) else MarkRefund(w, true, true);
    var s2 := Staged(s1, w, if f.RefundError? then Erring else Marked).(
                refunds := if f.RefundError? && !f.applied then s.refunds else MarkedRefunded(s.refunds, r, ref, s.clock));
    assert Next(s1, marks, s2);
    var ends := if f.RefundError? then ReleaseClaim(w, f.released) else MarkProcessed(w, f != ProcessedError(false));
    var s3 := Dequeued(s2, w).(
                events := if f.RefundError? then (if f.released then Released(s.events, e) else s.events)
                          else if f == ProcessedError(false) then s.events else Processed(s.events, e, s.clock));
    assert Next(s2, ends, s3);
    ss, mvs := [s, s1, s2, s3], [CallGateway(w, ref), marks, ends];
  }

  /** Handling one event, whatever fails, is a path of the many-worker protocol. */
  lemma HandlingIsAPath(s: State, w: nat, queue: seq<Id>, ref: string, f: Fault) returns (ss: seq<State>, mvs: seq<Move>)
    requires queue != [] && Facing(s, w, queue) && queue[0] in s.events
    ensures IsPath(Next, ss, mvs) && ss[0] == s && Facing(ss[|mvs|], w, queue[1..]) && ss[|mvs|].clock == s.clock
    ensures DeskOf(ss[|mvs|]) == Handled(DeskOf(s), queue[0], s.clock, ref, f)
  {
    if IsRefundEvent(s.events[queue[0]]) {
      ss, mvs := RefundIsAPath(s, w, queue, ref, f);
    } else {
      ss, mvs := DeadLetterIsAPath(s, w, queue, f);
    }
  }

  lemma {:induction false} BatchIsAPath(s: State, w: nat, batch: seq<Id>, k: nat, refs: Id -> string, faults: Id -> Fault)
      returns (ss: seq<State>, mvs: seq<Move>)
    requires Facing(s, w, batch) && k <= |batch| && forall e :: e in batch ==> e in s.events
    ensures IsPath(Next, ss, mvs) && ss[0] == s && Facing(ss[|mvs|], w, batch[k..]) && ss[|mvs|].clock == s.clock
    ensures forall e :: e in batch[..k] ==> e in s.events
    ensures DeskOf(ss[|mvs|]) == HandledAll(DeskOf(s), batch[..k], s.clock, refs, faults)
  {
    if k == 0 {
      ss, mvs := [s], [];
      assert batch[0..] == batch;
    } else {
      ss, mvs := BatchIsAPath(s, w, batch, k - 1, refs, faults);
      var e := batch[k - 1];
      assert batch[k - 1..][0] == e && batch[k - 1..][1..] == batch[k..] && batch[..k][..k - 1] == batch[..k - 1];
      assert ss[|mvs|].events.Keys == s.events.Keys && e in batch;
      var ts, nvs := HandlingIsAPath(ss[|mvs|], w, batch[k - 1..], refs(e), faults(e));
      Chain(Next, ss, mvs, ts, nvs);
      ss, mvs := ss + ts[1..], mvs + nvs;
    }
  }

  /** A tick of an idle worker that nothing interleaves, in any state of the protocol, is a path of it
      that ends in the tables the method ProcessBatch leaves; so every guarantee of the protocol covers
      the code, and those paths are what other workers' steps interleave with. */
  lemma TickIsAPath(s: State, w: nat, limit: nat, batch: seq<Id>, refs: Id -> string, faults: Id -> Fault)
      returns (ss: seq<State>, mvs: seq<Move>)
    requires (w in s.workers ==> s.workers[w].queue == []) && IsBatch(s.events, s.clock, limit, batch)
    ensures IsPath(Next, ss, mvs) && ss[0] == s
    ensures forall e :: e in batch ==> e in s.events
    ensures DeskOf(ss[|mvs|]) ==
            HandledAll(DeskOf(s).(events := Claimed(s.events, Ids(batch), s.clock)), batch, s.clock, refs, faults)
  {
    var s1 := s.(events := Claimed(s.events, Ids(batch), s.clock), workers := s.workers[w := Worker(batch, Start)]);
    assert Next(s, Poll(w, batch, true), s1);
    assert IsPath(Next, [s, s1], [Poll(w, batch, true)]);
    var ts, nvs := BatchIsAPath(s1, w, batch, |batch|, refs, faults);
    assert batch[..|batch|] == batch;
    Chain(Next, [s, s1], [Poll(w, batch, true)], ts, nvs);
    ss, mvs := [s, s1] + ts[1..], [Poll(w, batch, true)] + nvs;
  }

  /** Every reachable state of the protocol is one from which failure-free ticks drain it. */
  lemma ReachableDesksAreAnnounced(ss: seq<State>, mvs: seq<Move>, k: nat)
    requires IsRun(ss, mvs) && k < |ss|
    ensures PendingAnnounced(DeskOf(ss[k]))
  {
    NoRefundIsLost(ss, mvs, k);
    var d := DeskOf(ss[k]);
    forall r | r in d.refunds && d.refunds[r].status == Pending
      ensures exists e :: e in Unprocessed(d.events) && IsRefundEvent(d.events[e]) && d.events[e].payload.id == r
    {
      var e :| Announces(ss[k], e, r) && ss[k].events[e].processedAt.None?;
      assert e in Unprocessed(d.events) && IsRefundEvent(d.events[e]) && d.events[e].payload.id == r;
    }
  }
}
