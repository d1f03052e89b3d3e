/**
 The per-client rate limiter with idle eviction (httpapi/ratelimit.go). `allow` reads the clock,
 then stamps the client's entry under the mutex, then spends a token outside it, so calls of many
 goroutines interleave in between. Times are seconds and tokens are exact; the token bucket of
 golang.org/x/time/rate refills continuously, is capped at the burst and spends one token per
 admitted request, each spend atomic at its own reading of the clock.
 */
module RateLimiter {

  /** newIPRateLimiter(10, 20) and limiterIdleTTL of ten minutes. */
  const RATE := 10.0
  const BURST := 20.0
  const IDLE_TTL := 600.0

  datatype Bucket = Bucket(tokens: real, last: real)

  datatype Entry = Entry(bucket: nat, lastSeen: real)

  /** The map and the limiters its entries point to; a goroutine may point to one that the map dropped. */
  datatype Table = Table(entries: map<string, Entry>, buckets: map<nat, Bucket>, next: nat)

  // ---------------------------------------------------------------- specification

  function Min(a: real, b: real): real {
    if a < b then a else b
  }

  function Available(k: Bucket, now: real): real {
    Min(BURST, k.tokens + RATE * (now - k.last))
  }

  function BucketOf(tb: Table, ip: string): nat {
    if ip in tb.entries then tb.entries[ip].bucket else tb.next
  }

  /** The section under the mutex: find or create the client's entry, and stamp it. */
  function Stamped(tb: Table, ip: string, now: real): Table {
    if ip in tb.entries then tb.(entries := tb.entries[ip := tb.entries[ip].(lastSeen := now)])
    else Table(tb.entries[ip := Entry(tb.next, now)], tb.buckets[tb.next := Bucket(BURST, now)], tb.next + 1)
  }

  predicate Admits(tb: Table, b: nat, at: real) {
    b in tb.buckets && Available(tb.buckets[b], at) >= 1.0
  }

  function Spent(tb: Table, b: nat, at: real): Table {
    if Admits(tb, b, at) then tb.(buckets := tb.buckets[b := Bucket(Available(tb.buckets[b], at) - 1.0, at)]) else tb
  }

  function Evicted(tb: Table, cutoff: real): Table {
    tb.(entries := map ip | ip in tb.entries && tb.entries[ip].lastSeen >= cutoff :: tb.entries[ip])
  }

  // ---------------------------------------------------------------- the code

  class IpRateLimiter {
    var entries: map<string, Entry>
    var buckets: map<nat, Bucket>
    var next: nat

    constructor ()
      ensures View() == Table(map[], map[], 0)
    {
      entries, buckets, next := map[], map[], 0;
    }

    function View(): Table
      reads this
    {
      Table(entries, buckets, next)
    }

    /** Lines 42-49 of allow, between lock and unlock. */
    method Enter(ip: string, now: real) returns (b: nat)
      modifies this
      ensures View() == Stamped(old(View()), ip, now) && b == BucketOf(old(View()), ip)
    {
      if ip !in entries {
        entries, buckets, next := entries[ip := Entry(next, now)], buckets[next := Bucket(BURST, now)], next + 1;
      }
      entries := entries[ip := entries[ip].(lastSeen := now)];
      b := entries[ip].bucket;
    }

    /** Line 50: the limiter spends a token, with no lock of ours held. */
    method Spend(b: nat, at: real) returns (ok: bool)
      modifies this
      ensures View() == Spent(old(View()), b, at) && ok == Admits(old(View()), b, at)
    {
      ok := b in buckets && Available(buckets[b], at) >= 1.0;
      if ok {
        buckets := buckets[b := Bucket(Available(buckets[b], at) - 1.0, at)];
      }
    }

    /** allow (ratelimit.go:40-51) by a goroutine that nobody overtakes; `now` is read before the lock. */
    method Allow(ip: string, now: real, at: real) returns (ok: bool)
      modifies this
      ensures var tb, b := Stamped(old(View()), ip, now), BucketOf(old(View()), ip);
              View() == Spent(tb, b, at) && ok == Admits(tb, b, at)
    {
      var b := Enter(ip, now);
      ok := Spend(b, at);
    }

    /** One round of cleanupLoop (ratelimit.go:60-69); `now` is read before the lock. */
    method Cleanup(now: real)
      modifies this
      ensures View() == Evicted(old(View()), now - IDLE_TTL)
    {
      var cutoff := now - IDLE_TTL;
      var todo := entries.Keys;
      while todo != {}
        invariant todo <= old(entries).Keys && buckets == old(buckets) && next == old(next)
        invariant entries == map ip | ip in old(entries) && (ip in todo || old(entries)[ip].lastSeen >= cutoff) :: old(entries)[ip]
        decreases todo
      {
        var ip :| ip in todo;
        if entries[ip].lastSeen < cutoff {
          entries := entries - {ip};
        }
        todo := todo - {ip};
      }
    }
  }

  // ---------------------------------------------------------------- many goroutines

  /** A call of `allow` in progress; `now` is the clock it read. */
  datatype Call = Reading(ip: string, now: real) | Holding(ip: string, now: real, bucket: nat)

  datatype Sys = Sys(tb: Table, calls: map<nat, Call>)

  datatype Move =
    | Read(at: real, g: nat, ip: string)
    | Stamp(at: real, g: nat)
    | Spend(at: real, g: nat)
    | Sweep(at: real, now: real)

  const EMPTY := Sys(Table(map[], map[], 0), map[])

  function After(s: Sys, mv: Move): Sys {
    match mv
    case Read(at, g, ip) => if g in s.calls then s else s.(calls := s.calls[g := Reading(ip, at)])
    case Stamp(_, g) =>
      if g in s.calls && s.calls[g].Reading? then
        var ip, now := s.calls[g].ip, s.calls[g].now;
        Sys(Stamped(s.tb, ip, now), s.calls[g := Holding(ip, now, BucketOf(s.tb, ip))])
      else s
    case Spend(at, g) =>
      if g in s.calls && s.calls[g].Holding? then Sys(Spent(s.tb, s.calls[g].bucket, at), s.calls - {g}) else s
    case Sweep(_, now) => s.(tb := Evicted(s.tb, now - IDLE_TTL))
  }

  /** What the move answers: the caller of `allow` learns the outcome of the spend. */
  function Answer(s: Sys, mv: Move): seq<bool> {
    if mv.Spend? && mv.g in s.calls && s.calls[mv.g].Holding? then [Admits(s.tb, s.calls[mv.g].bucket, mv.at)] else []
  }

  function Answers(s: Sys, mvs: seq<Move>): seq<bool>
    decreases mvs
  {
    if mvs == [] then [] else Answer(s, mvs[0]) + Answers(After(s, mvs[0]), mvs[1..])
  }

  function AfterAll(s: Sys, mvs: seq<Move>): Sys
    decreases mvs
  {
    if mvs == [] then s else AfterAll(After(s, mvs[0]), mvs[1..])
  }

  function WithoutSweeps(mvs: seq<Move>): seq<Move> {
    if mvs == [] then [] else (if mvs[0].Sweep? then [] else [mvs[0]]) + WithoutSweeps(mvs[1..])
  }

  /** At time `at` no call has been in progress for longer than `d`. */
  ghost predicate Prompt(s: Sys, at: real, d: real) {
    forall g :: g in s.calls ==> at - d <= s.calls[g].now
  }

  /** Moves in clock order, none before `since`, and no call of `allow` takes longer than `d`. */
  ghost predicate Timely(s: Sys, mvs: seq<Move>, since: real, d: real)
    decreases mvs
  {
    mvs != [] ==>
      && since <= mvs[0].at && Prompt(s, mvs[0].at, d) && (mvs[0].Sweep? ==> mvs[0].now <= mvs[0].at)
      && Timely(After(s, mvs[0]), mvs[1..], mvs[0].at, d)
  }

  // ---------------------------------------------------------------- what every move keeps

  /** The longest `allow` for which eviction is harmless. */
  const LIMIT := 299.0

  /** The client's bucket was last spent from at most 2d after the stamp. */
  ghost predicate EntryOk(tb: Table, ip: string, now: real, d: real) {
    && ip in tb.entries && tb.entries[ip].bucket in tb.buckets && tb.entries[ip].bucket < tb.next
    && var k := tb.buckets[tb.entries[ip].bucket];
       0.0 <= k.tokens <= BURST && k.last <= now && k.last <= tb.entries[ip].lastSeen + 2.0 * d
  }

  /** A call that holds a bucket holds its client's current one, and was not stamped over by one that
      read the clock more than `d` before it. */
  ghost predicate CallOk(tb: Table, c: Call, now: real, d: real) {
    && c.now <= now
    && (c.Holding? ==> c.ip in tb.entries && tb.entries[c.ip].bucket == c.bucket && c.now <= tb.entries[c.ip].lastSeen + d)
  }

  ghost predicate Apart(tb: Table) {
    forall a, b :: a in tb.entries && b in tb.entries && tb.entries[a].bucket == tb.entries[b].bucket ==> a == b
  }

  ghost predicate Valid(s: Sys, now: real, d: real) {
    && (forall ip :: ip in s.tb.entries ==> EntryOk(s.tb, ip, now, d))
    && (forall g :: g in s.calls ==> CallOk(s.tb, s.calls[g], now, d))
    && Apart(s.tb)
  }

  lemma StampKeepsValid(s: Sys, mv: Move, since: real, d: real)
    requires mv.Stamp? && Valid(s, since, d) && since <= mv.at && Prompt(s, mv.at, d) && d >= 0.0
    ensures Valid(After(s, mv), mv.at, d)
  {
    if mv.g in s.calls && s.calls[mv.g].Reading? {
      var s', at := After(s, mv), mv.at;
      assert CallOk(s.tb, s.calls[mv.g], since, d);
      forall ip | ip in s'.tb.entries ensures EntryOk(s'.tb, ip, at, d) {
        if ip in s.tb.entries {
          assert EntryOk(s.tb, ip, since, d);
        }
      }
      forall g | g in s'.calls ensures CallOk(s'.tb, s'.calls[g], at, d) {
        assert CallOk(s.tb, s.calls[g], since, d);
      }
      assert forall ip :: ip in s.tb.entries ==> EntryOk(s.tb, ip, since, d);
    }
  }

  lemma SpendKeepsValid(s: Sys, mv: Move, since: real, d: real)
    requires mv.Spend? && Valid(s, since, d) && since <= mv.at && Prompt(s, mv.at, d) && d >= 0.0
    ensures Valid(After(s, mv), mv.at, d)
  {
    if mv.g in s.calls && s.calls[mv.g].Holding? {
      var s', at := After(s, mv), mv.at;
      assert CallOk(s.tb, s.calls[mv.g], since, d);
      forall ip | ip in s'.tb.entries ensures EntryOk(s'.tb, ip, at, d) {
        assert EntryOk(s.tb, ip, since, d);
      }
      forall g | g in s'.calls ensures CallOk(s'.tb, s'.calls[g], at, d) {
        assert CallOk(s.tb, s.calls[g], since, d);
      }
    }
  }

  lemma LaterIsValid(s: Sys, since: real, at: real, d: real)
    requires Valid(s, since, d) && since <= at
    ensures Valid(s, at, d)
  {
    forall ip | ip in s.tb.entries ensures EntryOk(s.tb, ip, at, d) {
      assert EntryOk(s.tb, ip, since, d);
    }
    forall g | g in s.calls ensures CallOk(s.tb, s.calls[g], at, d) {
      assert CallOk(s.tb, s.calls[g], since, d);
    }
  }

  /** The entry of a call in progress is too fresh to be dropped. */
  lemma HeldStays(s: Sys, g: nat, at: real, now: real, d: real)
    requires Valid(s, at, d) && Prompt(s, at, d) && now <= at && 0.0 <= d <= LIMIT && g in s.calls
    ensures s.calls[g].Holding? ==> s.calls[g].ip in s.tb.entries && s.tb.entries[s.calls[g].ip].lastSeen >= now - IDLE_TTL
  {
    assert CallOk(s.tb, s.calls[g], at, d);
  }

  /** What a round of eviction drops is full. */
  lemma DroppedIsFull(s: Sys, ip: string, at: real, now: real, d: real)
    requires Valid(s, at, d) && now <= at && 0.0 <= d <= LIMIT
    requires ip in s.tb.entries && s.tb.entries[ip].lastSeen < now - IDLE_TTL
    ensures Available(s.tb.buckets[s.tb.entries[ip].bucket], at) == BURST
  {
    assert EntryOk(s.tb, ip, at, d);
  }

  lemma SweepKeepsValid(s: Sys, mv: Move, d: real)
    requires mv.Sweep? && Valid(s, mv.at, d) && Prompt(s, mv.at, d) && mv.now <= mv.at && 0.0 <= d <= LIMIT
    ensures Valid(After(s, mv), mv.at, d)
  {
    var s' := After(s, mv);
    forall ip | ip in s'.tb.entries ensures EntryOk(s'.tb, ip, mv.at, d) {
      assert EntryOk(s.tb, ip, mv.at, d);
    }
    forall g | g in s'.calls ensures CallOk(s'.tb, s'.calls[g], mv.at, d) {
      var c := s.calls[g];
      assert CallOk(s.tb, c, mv.at, d);
      HeldStays(s, g, mv.at, mv.now, d);
    }
  }

  lemma MoveKeepsValid(s: Sys, mv: Move, since: real, d: real)
    requires Valid(s, since, d) && since <= mv.at && Prompt(s, mv.at, d) && 0.0 <= d && (mv.Sweep? ==> mv.now <= mv.at && d <= LIMIT)
    ensures Valid(After(s, mv), mv.at, d)
  {
    LaterIsValid(s, since, mv.at, d);
    match mv
    case Read(_, _, _) =>
    case Stamp(_, _) => StampKeepsValid(s, mv, since, d);
    case Spend(_, _) => SpendKeepsValid(s, mv, since, d);
    case Sweep(_, _) => SweepKeepsValid(s, mv, d);
  }

  // ---------------------------------------------------------------- eviction is unobservable

  /** Two buckets that no spend can tell apart from now on. */
  predicate Alike(k: Bucket, k': Bucket, now: real) {
    k == k' || (Available(k, now) == BURST && Available(k', now) == BURST)
  }

  /** A client the evicting map has dropped has a full bucket in the other. */
  ghost predicate SameFor(tb: Table, fb: Table, ip: string, now: real) {
    if ip in tb.entries then
      && ip in fb.entries && tb.entries[ip].bucket in tb.buckets && fb.entries[ip].bucket in fb.buckets
      && Alike(tb.buckets[tb.entries[ip].bucket], fb.buckets[fb.entries[ip].bucket], now)
    else
      ip in fb.entries ==> fb.entries[ip].bucket in fb.buckets && Available(fb.buckets[fb.entries[ip].bucket], now) == BURST
  }

  ghost predicate SameCall(c: Call, c': Call, tb: Table, fb: Table) {
    && c'.ip == c.ip && c'.now == c.now && (c.Reading? <==> c'.Reading?)
    && (c.Holding? ==>
          && c.ip in tb.entries && tb.entries[c.ip].bucket == c.bucket
          && c.ip in fb.entries && fb.entries[c.ip].bucket == c'.bucket)
  }

  ghost predicate Fresh(tb: Table) {
    Apart(tb) && forall ip :: ip in tb.entries ==> tb.entries[ip].bucket < tb.next
  }

  ghost predicate Same(s: Sys, f: Sys, now: real) {
    && (forall ip :: SameFor(s.tb, f.tb, ip, now))
    && s.calls.Keys == f.calls.Keys
    && (forall g :: g in s.calls ==> SameCall(s.calls[g], f.calls[g], s.tb, f.tb))
    && Fresh(s.tb) && Fresh(f.tb)
  }

  lemma SameLater(s: Sys, f: Sys, now: real, later: real)
    requires Same(s, f, now) && now <= later
    ensures Same(s, f, later)
  {
    forall ip ensures SameFor(s.tb, f.tb, ip, later) {
      assert SameFor(s.tb, f.tb, ip, now);
    }
  }

  lemma StampSame(s: Sys, f: Sys, mv: Move)
    requires mv.Stamp? && Same(s, f, mv.at) && (mv.g in s.calls ==> s.calls[mv.g].now <= mv.at)
    ensures Same(After(s, mv), After(f, mv), mv.at)
  {
    if mv.g in s.calls && s.calls[mv.g].Reading? {
      var s', f' := After(s, mv), After(f, mv);
      assert SameCall(s.calls[mv.g], f.calls[mv.g], s.tb, f.tb);
      forall ip ensures SameFor(s'.tb, f'.tb, ip, mv.at) {
        assert SameFor(s.tb, f.tb, ip, mv.at);
      }
      forall g | g in s'.calls ensures SameCall(s'.calls[g], f'.calls[g], s'.tb, f'.tb) {
        assert SameCall(s.calls[g], f.calls[g], s.tb, f.tb);
      }
    }
  }

  lemma SpendSame(s: Sys, f: Sys, mv: Move)
    requires mv.Spend? && Same(s, f, mv.at)
    ensures Answer(s, mv) == Answer(f, mv) && Same(After(s, mv), After(f, mv), mv.at)
  {
    if mv.g in s.calls {
      var c := s.calls[mv.g];
      assert SameCall(c, f.calls[mv.g], s.tb, f.tb);
      if c.Holding? {
        assert SameFor(s.tb, f.tb, c.ip, mv.at);
        var s', f' := After(s, mv), After(f, mv);
        forall ip ensures SameFor(s'.tb, f'.tb, ip, mv.at) {
          assert SameFor(s.tb, f.tb, ip, mv.at);
        }
        forall g | g in s'.calls ensures SameCall(s'.calls[g], f'.calls[g], s'.tb, f'.tb) {
          assert SameCall(s.calls[g], f.calls[g], s.tb, f.tb);
        }
      }
    }
  }

  lemma EvictSame(s: Sys, f: Sys, mv: Move, d: real)
    requires mv.Sweep? && Valid(s, mv.at, d) && Prompt(s, mv.at, d) && mv.now <= mv.at && 0.0 <= d <= LIMIT
    requires Same(s, f, mv.at)
    ensures Same(After(s, mv), f, mv.at)
  {
    var s' := After(s, mv);
    forall ip ensures SameFor(s'.tb, f.tb, ip, mv.at) {
      assert SameFor(s.tb, f.tb, ip, mv.at);
      if ip in s.tb.entries && s.tb.entries[ip].lastSeen < mv.now - IDLE_TTL {
        DroppedIsFull(s, ip, mv.at, mv.now, d);
      }
    }
    forall g | g in s'.calls ensures SameCall(s'.calls[g], f.calls[g], s'.tb, f.tb) {
      var c := s.calls[g];
      assert SameCall(c, f.calls[g], s.tb, f.tb);
      HeldStays(s, g, mv.at, mv.now, d);
    }
  }

  lemma MoveSame(s: Sys, f: Sys, mv: Move)
    requires !mv.Sweep? && Same(s, f, mv.at) && (mv.Stamp? && mv.g in s.calls ==> s.calls[mv.g].now <= mv.at)
    ensures Answer(s, mv) == Answer(f, mv) && Same(After(s, mv), After(f, mv), mv.at)
  {
    match mv
    case Read(_, _, _) =>
    case Stamp(_, _) => StampSame(s, f, mv);
    case Spend(_, _) => SpendSame(s, f, mv);
  }

  lemma {:induction false} AnswersAgree(s: Sys, f: Sys, mvs: seq<Move>, since: real, d: real)
    requires Valid(s, since, d) && Same(s, f, since) && Timely(s, mvs, since, d) && 0.0 <= d <= LIMIT
    ensures Answers(s, mvs) == Answers(f, WithoutSweeps(mvs))
    decreases mvs
  {
    if mvs != [] {
      var mv, rest := mvs[0], mvs[1..];
      SameLater(s, f, since, mv.at);
      LaterIsValid(s, since, mv.at, d);
      MoveKeepsValid(s, mv, since, d);
      if mv.Sweep? {
        EvictSame(s, f, mv, d);
        AnswersAgree(After(s, mv), f, rest, mv.at, d);
        assert WithoutSweeps(mvs) == WithoutSweeps(rest);
      } else {
        assert mv.Stamp? && mv.g in s.calls ==> CallOk(s.tb, s.calls[mv.g], mv.at, d);
        MoveSame(s, f, mv);
        AnswersAgree(After(s, mv), After(f, mv), rest, mv.at, d);
        assert WithoutSweeps(mvs) == [mv] + WithoutSweeps(rest);
        assert WithoutSweeps(mvs)[1..] == WithoutSweeps(rest);
      }
    }
  }

  /** If no call of `allow` takes longer than 299 s, then whenever the janitor runs, and however the
      goroutines interleave, requests are answered as if it never did. */
  lemma EvictionIsUnobservable(mvs: seq<Move>, since: real, d: real)
    requires Timely(EMPTY, mvs, since, d) && 0.0 <= d <= LIMIT
    ensures Answers(EMPTY, mvs) == Answers(EMPTY, WithoutSweeps(mvs))
  {
    AnswersAgree(EMPTY, EMPTY, mvs, since, d);
  }

  // ---------------------------------------------------------------- the rate

  /** Tokens the client would find now; a client without an entry gets a full bucket. */
  function AvailableTo(tb: Table, ip: string, now: real): real {
    if ip in tb.entries && tb.entries[ip].bucket in tb.buckets then Available(tb.buckets[tb.entries[ip].bucket], now) else BURST
  }

  /** The move admits a request of client `ip`. */
  predicate AdmitsOne(s: Sys, mv: Move, ip: string) {
    Answer(s, mv) == [true] && s.calls[mv.g].ip == ip
  }

  /** How many requests of one client a run admits. */
  function Admitted(s: Sys, mvs: seq<Move>, ip: string): nat
    decreases mvs
  {
    if mvs == [] then 0
    else (if AdmitsOne(s, mvs[0], ip) then 1 else 0) + Admitted(After(s, mvs[0]), mvs[1..], ip)
  }

  lemma SweepSpends(s: Sys, mv: Move, ip: string, d: real)
    requires mv.Sweep? && Valid(s, mv.at, d) && mv.now <= mv.at && 0.0 <= d <= LIMIT
    ensures AvailableTo(After(s, mv).tb, ip, mv.at) == AvailableTo(s.tb, ip, mv.at)
  {
    if ip in s.tb.entries {
      assert EntryOk(s.tb, ip, mv.at, d);
      if s.tb.entries[ip].lastSeen < mv.now - IDLE_TTL {
        DroppedIsFull(s, ip, mv.at, mv.now, d);
      }
    }
  }

  lemma SpendSpends(s: Sys, mv: Move, ip: string, d: real)
    requires mv.Spend? && Valid(s, mv.at, d)
    ensures AvailableTo(After(s, mv).tb, ip, mv.at) ==
            AvailableTo(s.tb, ip, mv.at) - if AdmitsOne(s, mv, ip) then 1.0 else 0.0
  {
    assert mv.g in s.calls ==> CallOk(s.tb, s.calls[mv.g], mv.at, d);
    assert ip in s.tb.entries ==> EntryOk(s.tb, ip, mv.at, d);
  }

  lemma StampSpends(s: Sys, mv: Move, ip: string, d: real)
    requires (mv.Stamp? || mv.Read?) && Valid(s, mv.at, d)
    ensures AvailableTo(After(s, mv).tb, ip, mv.at) == AvailableTo(s.tb, ip, mv.at)
  {
    assert ip in s.tb.entries ==> EntryOk(s.tb, ip, mv.at, d);
    assert mv.g in s.calls ==> CallOk(s.tb, s.calls[mv.g], mv.at, d);
  }

  lemma TimeRefills(s: Sys, ip: string, since: real, at: real, d: real)
    requires Valid(s, since, d) && since <= at
    ensures 0.0 <= AvailableTo(s.tb, ip, at) <= AvailableTo(s.tb, ip, since) + RATE * (at - since)
  {
    assert ip in s.tb.entries ==> EntryOk(s.tb, ip, since, d);
  }

  /** A move takes what it admits out of what the client had, and time adds at most RATE per second. */
  lemma MoveSpends(s: Sys, mv: Move, ip: string, since: real, d: real)
    requires Valid(s, since, d) && since <= mv.at && 0.0 <= d && (mv.Sweep? ==> mv.now <= mv.at && d <= LIMIT)
    ensures var took := if AdmitsOne(s, mv, ip) then 1.0 else 0.0;
            AvailableTo(After(s, mv).tb, ip, mv.at) <= AvailableTo(s.tb, ip, since) + RATE * (mv.at - since) - took
  {
    LaterIsValid(s, since, mv.at, d);
    TimeRefills(s, ip, since, mv.at, d);
    match mv
    case Sweep(_, _) => SweepSpends(s, mv, ip, d);
    case Spend(_, _) => SpendSpends(s, mv, ip, d);
    case _ => StampSpends(s, mv, ip, d);
  }

  lemma {:induction false} AdmittedIsFunded(s: Sys, mvs: seq<Move>, ip: string, since: real, until: real, d: real)
    requires Valid(s, since, d) && Timely(s, mvs, since, d) && 0.0 <= d <= LIMIT
    requires since <= until && forall k :: 0 <= k < |mvs| ==> mvs[k].at <= until
    ensures Admitted(s, mvs, ip) as real <= AvailableTo(s.tb, ip, since) + RATE * (until - since)
    decreases mvs
  {
    if mvs == [] {
      TimeRefills(s, ip, since, until, d);
    } else {
      var mv := mvs[0];
      MoveSpends(s, mv, ip, since, d);
      MoveKeepsValid(s, mv, since, d);
      AdmittedIsFunded(After(s, mv), mvs[1..], ip, mv.at, until, d);
    }
  }

  lemma {:induction false} RunKeepsValid(s: Sys, mvs: seq<Move>, since: real, until: real, d: real)
    requires Valid(s, since, d) && Timely(s, mvs, since, d) && 0.0 <= d <= LIMIT
    requires since <= until && forall k :: 0 <= k < |mvs| ==> mvs[k].at <= until
    ensures Valid(AfterAll(s, mvs), until, d)
    decreases mvs
  {
    if mvs == [] {
      LaterIsValid(s, since, until, d);
    } else {
      MoveKeepsValid(s, mvs[0], since, d);
      RunKeepsValid(After(s, mvs[0]), mvs[1..], mvs[0].at, until, d);
    }
  }

  /** If no call takes longer than 299 s: in any run, whatever came before and however calls and evictions
      interleave, a window of T seconds admits at most 20 + 10 T requests of one client. */
  lemma WindowBound(before: seq<Move>, window: seq<Move>, ip: string, start: real, from: real, length: real, d: real)
    requires Timely(EMPTY, before, start, d) && start <= from && length >= 0.0 && 0.0 <= d <= LIMIT
    requires forall k :: 0 <= k < |before| ==> before[k].at <= from
    requires Timely(AfterAll(EMPTY, before), window, from, d) && forall k :: 0 <= k < |window| ==> window[k].at <= from + length
    ensures Admitted(AfterAll(EMPTY, before), window, ip) as real <= 20.0 + 10.0 * length
  {
    RunKeepsValid(EMPTY, before, start, from, d);
    AdmittedIsFunded(AfterAll(EMPTY, before), window, ip, from, from + length, d);
  }

  /** The move turns a request of client `ip` away. */
  predicate Refuses(s: Sys, mv: Move, ip: string) {
    Answer(s, mv) == [false] && s.calls[mv.g].ip == ip
  }

  /** A bucket that is not full has got all of its refill. */
  lemma TimeRefillsFully(s: Sys, ip: string, since: real, at: real, d: real)
    requires Valid(s, since, d) && since <= at
    ensures AvailableTo(s.tb, ip, at) == 20.0 || AvailableTo(s.tb, ip, at) == AvailableTo(s.tb, ip, since) + 10.0 * (at - since)
  {
    assert ip in s.tb.entries ==> EntryOk(s.tb, ip, since, d);
  }

  lemma MoveTakes(s: Sys, mv: Move, ip: string, d: real)
    requires Valid(s, mv.at, d) && 0.0 <= d <= LIMIT && (mv.Sweep? ==> mv.now <= mv.at)
    ensures AvailableTo(After(s, mv).tb, ip, mv.at) == AvailableTo(s.tb, ip, mv.at) - if AdmitsOne(s, mv, ip) then 1.0 else 0.0
  {
    match mv
    case Sweep(_, _) => SweepSpends(s, mv, ip, d);
    case Spend(_, _) => SpendSpends(s, mv, ip, d);
    case _ => StampSpends(s, mv, ip, d);
  }

  lemma RefusedIsEmpty(s: Sys, mv: Move, ip: string, d: real)
    requires Valid(s, mv.at, d) && Refuses(s, mv, ip)
    ensures AvailableTo(s.tb, ip, mv.at) < 1.0
  {
    assert CallOk(s.tb, s.calls[mv.g], mv.at, d);
    assert EntryOk(s.tb, ip, mv.at, d);
  }

  lemma LaterPart(s: Sys, mvs: seq<Move>, i: nat)
    requires mvs != [] && i < |mvs|
    ensures AfterAll(s, mvs[..i + 1]) == AfterAll(After(s, mvs[0]), mvs[1..][..i]) && mvs[i + 1..] == mvs[1..][i..]
  {
    assert mvs[..i + 1][1..] == mvs[1..][..i];
  }

  /** The client had a full bucket at `from`, and `used` of its requests were admitted since. If the last
      move refuses it one, then it used up the bucket and the refill since then, or else since the clock of
      move `i`, at which it had a full bucket again. */
  lemma {:induction false} Exhausted(s: Sys, mvs: seq<Move>, ip: string, since: real, d: real, from: real, used: real) returns (i: int)
    requires Valid(s, since, d) && Timely(s, mvs, since, d) && 0.0 <= d <= LIMIT && from <= since && mvs != []
    requires AvailableTo(s.tb, ip, since) >= 20.0 + 10.0 * (since - from) - used
    requires Refuses(AfterAll(s, mvs[..|mvs| - 1]), mvs[|mvs| - 1], ip)
    ensures -1 <= i < |mvs|
    ensures i == -1 ==> used + Admitted(s, mvs, ip) as real + 1.0 > 20.0 + 10.0 * (mvs[|mvs| - 1].at - from)
    ensures i >= 0 ==> Admitted(AfterAll(s, mvs[..i]), mvs[i..], ip) as real + 1.0 > 20.0 + 10.0 * (mvs[|mvs| - 1].at - mvs[i].at)
    decreases mvs
  {
    var mv, rest := mvs[0], mvs[1..];
    LaterIsValid(s, since, mv.at, d);
    TimeRefillsFully(s, ip, since, mv.at, d);
    var full := AvailableTo(s.tb, ip, mv.at) == 20.0;
    if rest == [] {
      assert mvs[..0] == [];
      RefusedIsEmpty(s, mv, ip, d);
      i := -1;
    } else {
      MoveTakes(s, mv, ip, d);
      MoveKeepsValid(s, mv, since, d);
      LaterPart(s, mvs, |rest| - 1);
      var from', used' := if full then mv.at else from, (if full then 0.0 else used) + if AdmitsOne(s, mv, ip) then 1.0 else 0.0;
      var j := Exhausted(After(s, mv), rest, ip, mv.at, d, from', used');
      if j >= 0 {
        LaterPart(s, mvs, j);
        i := j + 1;
      } else {
        i := if full then 0 else -1;
        assert mvs[..0] == [] && mvs[0..] == mvs;
      }
    }
  }

  lemma {:induction false} ClockOrder(s: Sys, mvs: seq<Move>, since: real, d: real, j: nat, k: nat)
    requires Timely(s, mvs, since, d) && j <= k < |mvs|
    ensures since <= mvs[j].at <= mvs[k].at
    decreases mvs
  {
    if j > 0 {
      ClockOrder(After(s, mvs[0]), mvs[1..], mvs[0].at, d, j - 1, k - 1);
    } else if k > 0 {
      ClockOrder(After(s, mvs[0]), mvs[1..], mvs[0].at, d, 0, k - 1);
    }
  }

  /** The converse of the window bound. If no call takes longer than 299 s, a request is refused only when
      admitting it would have been too much: in some window up to it, of T seconds, the requests admitted
      and this one would be more than 20 + 10 T. */
  lemma RefusedOnlyOverTheRate(mvs: seq<Move>, start: real, ip: string, d: real) returns (i: nat, from: real)
    requires Timely(EMPTY, mvs, start, d) && 0.0 <= d <= LIMIT && mvs != []
    requires Refuses(AfterAll(EMPTY, mvs[..|mvs| - 1]), mvs[|mvs| - 1], ip)
    ensures i < |mvs| && forall k :: 0 <= k < |mvs| ==> if k < i then mvs[k].at <= from else from <= mvs[k].at
    ensures Admitted(AfterAll(EMPTY, mvs[..i]), mvs[i..], ip) as real + 1.0 > 20.0 + 10.0 * (mvs[|mvs| - 1].at - from)
  {
    var j := Exhausted(EMPTY, mvs, ip, start, d, start, 0.0);
    i, from := if j >= 0 then j else 0, if j >= 0 then mvs[j].at else start;
    assert mvs[..0] == [] && mvs[0..] == mvs;
    forall k | 0 <= k < |mvs| ensures if k < i then mvs[k].at <= from else from <= mvs[k].at {
      if k < i {
        ClockOrder(EMPTY, mvs, start, d, k, i);
      } else {
        ClockOrder(EMPTY, mvs, start, d, i, k);
      }
    }
  }
}
