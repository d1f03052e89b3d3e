/**
 Why the rate limiter's theorems bound the time one `allow` may take: for every bound above 299 s
 there is a run within it in which a stale stamp lets the janitor drop a drained bucket.
 */
module SlowCalls {
  import opened RateLimiter

  const IP := "ip"

  // ---------------------------------------------------------------- runs in pieces

  lemma {:induction false} RunConcat(s: Sys, a: seq<Move>, b: seq<Move>)
    ensures AfterAll(s, a + b) == AfterAll(AfterAll(s, a), b)
    ensures Answers(s, a + b) == Answers(s, a) + Answers(AfterAll(s, a), b)
    ensures Admitted(s, a + b, IP) == Admitted(s, a, IP) + Admitted(AfterAll(s, a), b, IP)
    decreases a
  {
    if a == [] {
      assert a + b == b;
    } else {
      assert (a + b)[0] == a[0] && (a + b)[1..] == a[1..] + b;
      RunConcat(After(s, a[0]), a[1..], b);
    }
  }

  lemma {:induction false} TimelyConcat(s: Sys, a: seq<Move>, b: seq<Move>, since: real, t: real, d: real)
    requires Timely(s, a, since, d) && since <= t && (forall k :: 0 <= k < |a| ==> a[k].at <= t) && Timely(AfterAll(s, a), b, t, d)
    ensures Timely(s, a + b, since, d)
    decreases a
  {
    if a == [] {
      assert a + b == b;
    } else {
      assert (a + b)[0] == a[0] && (a + b)[1..] == a[1..] + b;
      TimelyConcat(After(s, a[0]), a[1..], b, a[0].at, t, d);
    }
  }

  /** Moves of one instant are timely if no call in progress then is too old. */
  lemma {:induction false} TimelyAtOnce(s: Sys, mvs: seq<Move>, since: real, t: real, d: real)
    requires since <= t && d >= 0.0 && forall k :: 0 <= k < |mvs| ==> mvs[k].at == t && (mvs[k].Sweep? ==> mvs[k].now <= t)
    requires Prompt(s, t, d)
    ensures Timely(s, mvs, since, d)
    decreases mvs
  {
    if mvs != [] {
      assert mvs[0].at == t;
      TimelyAtOnce(After(s, mvs[0]), mvs[1..], t, t, d);
    }
  }

  lemma {:induction false} SweeplessConcat(a: seq<Move>, b: seq<Move>)
    ensures WithoutSweeps(a + b) == WithoutSweeps(a) + WithoutSweeps(b)
  {
    if a == [] {
      assert a + b == b;
    } else {
      assert (a + b)[0] == a[0] && (a + b)[1..] == a[1..] + b;
      SweeplessConcat(a[1..], b);
    }
  }

  lemma {:induction false} Sweepless(a: seq<Move>)
    requires forall k :: 0 <= k < |a| ==> !a[k].Sweep?
    ensures WithoutSweeps(a) == a
  {
    if a != [] {
      Sweepless(a[1..]);
      assert [a[0]] + a[1..] == a;
    }
  }

  // ---------------------------------------------------------------- calls one after the other

  function Burst(t: real, g: nat, n: nat): (mvs: seq<Move>)
    ensures forall k :: 0 <= k < |mvs| ==> mvs[k].at == t && !mvs[k].Sweep?
    decreases n
  {
    if n == 0 then [] else [Read(t, g, IP), Stamp(t, g), Spend(t, g)] + Burst(t, g + 1, n - 1)
  }

  function Trues(n: nat): seq<bool> {
    seq(n, _ => true)
  }

  /** The client's entry, if there is one, points to a bucket. */
  predicate Sound(tb: Table) {
    IP in tb.entries ==> tb.entries[IP].bucket in tb.buckets
  }

  lemma Call(s: Sys, t: real, g: nat)
    requires Sound(s.tb) && s.calls == map[]
    ensures var mvs := [Read(t, g, IP), Stamp(t, g), Spend(t, g)];
            var s', ok := AfterAll(s, mvs), AvailableTo(s.tb, IP, t) >= 1.0;
            && Sound(s'.tb) && s'.calls == map[] && Answers(s, mvs) == [ok]
            && Admitted(s, mvs, IP) == (if ok then 1 else 0)
            && AvailableTo(s'.tb, IP, t) == AvailableTo(s.tb, IP, t) - if ok then 1.0 else 0.0
  {
    var s1 := After(s, Read(t, g, IP));
    var s2 := After(s1, Stamp(t, g));
    var s3 := After(s2, Spend(t, g));
    assert s1.calls == map[g := Reading(IP, t)];
    assert s3.calls == map[];
    Three(s, Read(t, g, IP), Stamp(t, g), Spend(t, g));
  }

  lemma Single(s: Sys, a: Move)
    ensures AfterAll(s, [a]) == After(s, a) && Answers(s, [a]) == Answer(s, a)
    ensures Admitted(s, [a], IP) == if AdmitsOne(s, a, IP) then 1 else 0
  {
    assert [a][1..] == [];
    assert AfterAll(After(s, a), []) == After(s, a) && Answers(After(s, a), []) == [];
    assert Answer(s, a) + [] == Answer(s, a);
  }

  lemma Two(s: Sys, a: Move, b: Move)
    ensures AfterAll(s, [a, b]) == After(After(s, a), b) && Answers(s, [a, b]) == Answer(s, a) + Answer(After(s, a), b)
    ensures Admitted(s, [a, b], IP) == (if AdmitsOne(s, a, IP) then 1 else 0) + if AdmitsOne(After(s, a), b, IP) then 1 else 0
  {
    assert [a, b] == [a] + [b];
    RunConcat(s, [a], [b]);
    Single(s, a);
    Single(After(s, a), b);
  }

  lemma Three(s: Sys, a: Move, b: Move, c: Move)
    ensures AfterAll(s, [a, b, c]) == After(After(After(s, a), b), c)
    ensures Answers(s, [a, b, c]) == Answer(s, a) + Answer(After(s, a), b) + Answer(After(After(s, a), b), c)
    ensures Admitted(s, [a, b, c], IP) ==
            (if AdmitsOne(s, a, IP) then 1 else 0) + (if AdmitsOne(After(s, a), b, IP) then 1 else 0)
            + (if AdmitsOne(After(After(s, a), b), c, IP) then 1 else 0)
  {
    assert [a, b, c] == [a, b] + [c];
    RunConcat(s, [a, b], [c]);
    Two(s, a, b);
    Single(After(After(s, a), b), c);
  }

  /** n calls at once are all admitted iff the client has n tokens. */
  lemma {:induction false} BurstIsAdmittedIff(s: Sys, t: real, g: nat, n: nat)
    requires Sound(s.tb) && s.calls == map[]
    ensures Answers(s, Burst(t, g, n)) == Trues(n) <==> AvailableTo(s.tb, IP, t) >= n as real || n == 0
    ensures Answers(s, Burst(t, g, n)) == Trues(n) ==> Admitted(s, Burst(t, g, n), IP) == n
    decreases n
  {
    if n > 0 {
      var first, rest := [Read(t, g, IP), Stamp(t, g), Spend(t, g)], Burst(t, g + 1, n - 1);
      Call(s, t, g);
      RunConcat(s, first, rest);
      BurstIsAdmittedIff(AfterAll(s, first), t, g + 1, n - 1);
      assert Trues(n) == [true] + Trues(n - 1);
      var tail := Answers(AfterAll(s, first), rest);
      assert Answers(s, Burst(t, g, n)) == Answers(s, first) + tail;
      assert (Answers(s, first) + tail)[0] == Answers(s, first)[0] && (Answers(s, first) + tail)[1..] == tail;
      assert Trues(n)[1..] == Trues(n - 1);
    }
  }

  // ---------------------------------------------------------------- calls that enter early and spend late

  function Enters(t: real, g: nat, n: nat): (mvs: seq<Move>)
    ensures forall k :: 0 <= k < |mvs| ==> mvs[k].at == t && !mvs[k].Sweep?
    decreases n
  {
    if n == 0 then [] else [Read(t, g, IP), Stamp(t, g)] + Enters(t, g + 1, n - 1)
  }

  function Spends(t: real, g: nat, n: nat): (mvs: seq<Move>)
    ensures forall k :: 0 <= k < |mvs| ==> mvs[k].at == t && !mvs[k].Sweep?
    decreases n
  {
    if n == 0 then [] else [Spend(t, g)] + Spends(t, g + 1, n - 1)
  }

  /** The table with one client, whose bucket is `k`. */
  function One(lastSeen: real, k: Bucket): Table {
    Table(map[IP := Entry(0, lastSeen)], map[0 := k], 1)
  }

  function Holders(t: real, g: nat, n: nat): (cs: map<nat, RateLimiter.Call>)
    ensures forall i :: i in cs ==> g <= i && cs[i].now == t
    decreases n
  {
    if n == 0 then map[] else Holders(t, g + 1, n - 1)[g := Holding(IP, t, 0)]
  }

  lemma OneEnters(s: Sys, t: real, g: nat, k: Bucket)
    requires s.tb == One(t, k) && g !in s.calls
    ensures AfterAll(s, [Read(t, g, IP), Stamp(t, g)]) == Sys(One(t, k), s.calls[g := Holding(IP, t, 0)])
  {
    Two(s, Read(t, g, IP), Stamp(t, g));
    var s1 := After(s, Read(t, g, IP));
    assert s1.calls[g := Holding(IP, t, 0)] == s.calls[g := Holding(IP, t, 0)];
    assert map[IP := Entry(0, t)][IP := Entry(0, t)] == map[IP := Entry(0, t)];
  }

  lemma OneHolder(calls: map<nat, RateLimiter.Call>, t: real, g: nat, cs: map<nat, RateLimiter.Call>)
    requires g !in cs
    ensures calls[g := Holding(IP, t, 0)] + cs == calls + cs[g := Holding(IP, t, 0)]
  {
  }

  lemma {:induction false} AllEnter(s: Sys, t: real, g: nat, n: nat, k: Bucket)
    requires s.tb == One(t, k) && forall i :: i in s.calls ==> i < g
    ensures AfterAll(s, Enters(t, g, n)) == Sys(One(t, k), s.calls + Holders(t, g, n))
    decreases n
  {
    if n == 0 {
      assert s.calls + Holders(t, g, 0) == s.calls;
    } else {
      var first, rest := [Read(t, g, IP), Stamp(t, g)], Enters(t, g + 1, n - 1);
      RunConcat(s, first, rest);
      OneEnters(s, t, g, k);
      AllEnter(Sys(One(t, k), s.calls[g := Holding(IP, t, 0)]), t, g + 1, n - 1, k);
      OneHolder(s.calls, t, g, Holders(t, g + 1, n - 1));
    }
  }

  lemma FirstSpends(lastSeen: real, k: Bucket, t0: real, t: real, g: nat, others: map<nat, RateLimiter.Call>)
    requires Available(k, t) >= 1.0 && g !in others
    ensures var s := Sys(One(lastSeen, k), others[g := Holding(IP, t0, 0)]);
            && AfterAll(s, [Spend(t, g)]) == Sys(One(lastSeen, Bucket(Available(k, t) - 1.0, t)), others)
            && Admitted(s, [Spend(t, g)], IP) == 1
  {
    var s := Sys(One(lastSeen, k), others[g := Holding(IP, t0, 0)]);
    Single(s, Spend(t, g));
    assert s.calls - {g} == others;
    var k' := Bucket(Available(k, t) - 1.0, t);
    assert map[0 := k][0 := k'] == map[0 := k'];
  }

  lemma {:induction false} AllSpend(lastSeen: real, k: Bucket, t0: real, t: real, g: nat, n: nat)
    requires Available(k, t) >= n as real
    ensures var s := Sys(One(lastSeen, k), Holders(t0, g, n));
            && AfterAll(s, Spends(t, g, n)) == Sys(One(lastSeen, if n == 0 then k else Bucket(Available(k, t) - n as real, t)), map[])
            && Admitted(s, Spends(t, g, n), IP) == n
    decreases n
  {
    var s := Sys(One(lastSeen, k), Holders(t0, g, n));
    if n == 0 {
      assert Holders(t0, g, 0) == map[];
    } else {
      FirstSpends(lastSeen, k, t0, t, g, Holders(t0, g + 1, n - 1));
      AllSpend(lastSeen, Bucket(Available(k, t) - 1.0, t), t0, t, g + 1, n - 1);
      RunConcat(s, [Spend(t, g)], Spends(t, g + 1, n - 1));
    }
  }

  // ---------------------------------------------------------------- the run

  /** A call reads the clock at 0 and is delayed; at `e` a crowd of `n` enters, then the delayed call stamps
      its old time over theirs and finishes. */
  function Opening(e: real, n: nat): seq<Move> {
    [Read(0.0, 0, IP)] + (Enters(e, 1, n) + [Stamp(e, 0), Spend(e, 0)])
  }

  lemma FirstEnters(e: real)
    ensures var s := Sys(EMPTY.tb, map[0 := Reading(IP, 0.0)]);
            AfterAll(s, [Read(e, 1, IP), Stamp(e, 1)]) ==
            Sys(One(e, Bucket(BURST, e)), map[0 := Reading(IP, 0.0)][1 := Holding(IP, e, 0)])
  {
    var s := Sys(EMPTY.tb, map[0 := Reading(IP, 0.0)]);
    Two(s, Read(e, 1, IP), Stamp(e, 1));
    var s1 := After(s, Read(e, 1, IP));
    assert s1.calls[1 := Holding(IP, e, 0)] == map[0 := Reading(IP, 0.0)][1 := Holding(IP, e, 0)];
  }

  lemma CrowdEnters(e: real, n: nat)
    requires n > 0
    ensures var s := Sys(EMPTY.tb, map[0 := Reading(IP, 0.0)]);
            AfterAll(s, Enters(e, 1, n)) == Sys(One(e, Bucket(BURST, e)), map[0 := Reading(IP, 0.0)] + Holders(e, 1, n))
  {
    var s := Sys(EMPTY.tb, map[0 := Reading(IP, 0.0)]);
    var first, rest := [Read(e, 1, IP), Stamp(e, 1)], Enters(e, 2, n - 1);
    RunConcat(s, first, rest);
    FirstEnters(e);
    AllEnter(Sys(One(e, Bucket(BURST, e)), map[0 := Reading(IP, 0.0)][1 := Holding(IP, e, 0)]), e, 2, n - 1, Bucket(BURST, e));
    OneHolder(map[0 := Reading(IP, 0.0)], e, 1, Holders(e, 2, n - 1));
  }

  /** The delayed call stamps its old time and spends one token. */
  lemma DelayedFinishes(e: real, others: map<nat, RateLimiter.Call>)
    requires 0 !in others
    ensures AfterAll(Sys(One(e, Bucket(BURST, e)), map[0 := Reading(IP, 0.0)] + others), [Stamp(e, 0), Spend(e, 0)]) ==
            Sys(One(0.0, Bucket(19.0, e)), others)
  {
    var s2 := Sys(One(e, Bucket(BURST, e)), map[0 := Reading(IP, 0.0)] + others);
    Two(s2, Stamp(e, 0), Spend(e, 0));
    var s3 := After(s2, Stamp(e, 0));
    assert s3.tb == One(0.0, Bucket(BURST, e));
    assert s3.calls[0] == Holding(IP, 0.0, 0);
    var s4 := After(s3, Spend(e, 0));
    assert s4.calls == others;
    assert map[0 := Bucket(BURST, e)][0 := Bucket(19.0, e)] == map[0 := Bucket(19.0, e)];
  }

  lemma OpeningLeaves(e: real, n: nat)
    requires n > 0
    ensures AfterAll(EMPTY, Opening(e, n)) == Sys(One(0.0, Bucket(19.0, e)), Holders(e, 1, n))
  {
    var a, b, c := [Read(0.0, 0, IP)], Enters(e, 1, n), [Stamp(e, 0), Spend(e, 0)];
    var s1 := Sys(EMPTY.tb, map[0 := Reading(IP, 0.0)]);
    RunConcat(EMPTY, a, b + c);
    Single(EMPTY, Read(0.0, 0, IP));
    RunConcat(s1, b, c);
    CrowdEnters(e, n);
    DelayedFinishes(e, Holders(e, 1, n));
  }

  lemma OpeningIsTimely(e: real, n: nat, d: real)
    requires n > 0 && 0.0 <= e <= d
    ensures Timely(EMPTY, Opening(e, n), 0.0, d)
  {
    var a, bc := [Read(0.0, 0, IP)], Enters(e, 1, n) + [Stamp(e, 0), Spend(e, 0)];
    Single(EMPTY, Read(0.0, 0, IP));
    TimelyAtOnce(EMPTY, a, 0.0, 0.0, d);
    TimelyAtOnce(AfterAll(EMPTY, a), bc, 0.0, e, d);
    TimelyConcat(EMPTY, a, bc, 0.0, 0.0, d);
  }

  /** All moves are at time `t`, and none is a sweep. */
  ghost predicate AllAt(mvs: seq<Move>, t: real) {
    forall k :: 0 <= k < |mvs| ==> mvs[k].at == t && !mvs[k].Sweep?
  }

  /** The first crowd is in, under a stamp that is `e` old. */
  function Crowded(e: real, n: nat): Sys {
    Sys(One(0.0, Bucket(19.0, e)), Holders(e, 1, n))
  }

  /** The first crowd has spent: the bucket is empty and its entry looks idle since 0. */
  function Drained(e: real): Sys {
    Sys(One(0.0, Bucket(0.0, 2.0 * e)), map[])
  }

  lemma Opens(e: real, n: nat, d: real) returns (mvs: seq<Move>)
    requires n > 0 && 0.0 <= e <= d
    ensures Timely(EMPTY, mvs, 0.0, d) && AfterAll(EMPTY, mvs) == Crowded(e, n)
    ensures forall k :: 0 <= k < |mvs| ==> mvs[k].at <= e && !mvs[k].Sweep?
  {
    mvs := Opening(e, n);
    OpeningLeaves(e, n);
    OpeningIsTimely(e, n, d);
  }

  lemma Drains(e: real, n: nat) returns (mvs: seq<Move>)
    requires LIMIT < e <= 300.0 && n as real == BURST
    ensures AllAt(mvs, 2.0 * e) && AfterAll(Crowded(e, n), mvs) == Drained(e) && Admitted(Crowded(e, n), mvs, IP) == n
  {
    mvs := Spends(2.0 * e, 1, n);
    AllSpend(0.0, Bucket(19.0, e), e, 2.0 * e, 1, n);
  }

  lemma SweepDrops(e: real, t: real)
    requires LIMIT < e <= 300.0 && t == e + 301.0
    ensures var s' := After(Drained(e), Sweep(t, t));
            Sound(s'.tb) && s'.calls == map[] && AvailableTo(s'.tb, IP, t) == BURST && AvailableTo(Drained(e).tb, IP, t) < BURST
  {
  }

  lemma SweptFirst(s: Sys, mv: Move, mvs: seq<Move>)
    requires mv.Sweep?
    ensures Answers(s, [mv] + mvs) == Answers(After(s, mv), mvs) && Admitted(s, [mv] + mvs, IP) == Admitted(After(s, mv), mvs, IP)
  {
    assert ([mv] + mvs)[1..] == mvs;
    assert [] + Answers(After(s, mv), mvs) == Answers(After(s, mv), mvs);
  }

  /** The janitor drops the entry; a second crowd is admitted, which the bucket would not have done. */
  lemma SweepShows(e: real, n: nat, t: real) returns (mvs: seq<Move>)
    requires LIMIT < e <= 300.0 && n as real == BURST && t == e + 301.0
    ensures AllAt(mvs, t) && Answers(Drained(e), [Sweep(t, t)] + mvs) != Answers(Drained(e), mvs)
    ensures Admitted(Drained(e), [Sweep(t, t)] + mvs, IP) == n
  {
    mvs := Burst(t, n + 1, n);
    SweepDrops(e, t);
    BurstIsAdmittedIff(After(Drained(e), Sweep(t, t)), t, n + 1, n);
    BurstIsAdmittedIff(Drained(e), t, n + 1, n);
    SweptFirst(Drained(e), Sweep(t, t), mvs);
  }

  lemma ClosingIsTimely(e: real, n: nat, d: real, a: seq<Move>, t: real, b: seq<Move>)
    requires LIMIT < e <= 300.0 && e <= d && t == e + 301.0
    requires AllAt(a, 2.0 * e) && AllAt(b, t) && AfterAll(Crowded(e, n), a) == Drained(e)
    ensures Timely(Crowded(e, n), a + ([Sweep(t, t)] + b), e, d)
  {
    assert Timely(Crowded(e, n), a, e, d) by {
      TimelyAtOnce(Crowded(e, n), a, e, 2.0 * e, d);
    }
    assert Timely(Drained(e), [Sweep(t, t)] + b, 2.0 * e, d) by {
      TimelyAtOnce(Drained(e), [Sweep(t, t)] + b, 2.0 * e, t, d);
    }
    TimelyConcat(Crowded(e, n), a, [Sweep(t, t)] + b, e, 2.0 * e, d);
  }

  lemma SamePrefix(a: seq<bool>, b: seq<bool>, c: seq<bool>)
    requires b != c
    ensures a + b != a + c
  {
    assert b == (a + b)[|a|..] && c == (a + c)[|a|..];
  }

  /** Runs that differ at their ends differ. */
  lemma EndsDiffer(s: Sys, a: seq<Move>, b: seq<Move>, c: seq<Move>)
    requires Answers(AfterAll(s, a), b) != Answers(AfterAll(s, a), c)
    ensures Answers(s, a + b) != Answers(s, a + c)
  {
    RunConcat(s, a, b);
    RunConcat(s, a, c);
    SamePrefix(Answers(s, a), Answers(AfterAll(s, a), b), Answers(AfterAll(s, a), c));
  }

  lemma DropSweep(mv: Move, b: seq<Move>)
    requires mv.Sweep?
    ensures WithoutSweeps([mv] + b) == WithoutSweeps(b)
  {
    assert ([mv] + b)[1..] == b;
    assert [] + WithoutSweeps(b) == WithoutSweeps(b);
  }

  lemma OneSweep(a: seq<Move>, mv: Move, b: seq<Move>)
    requires mv.Sweep? && (forall k :: 0 <= k < |a| ==> !a[k].Sweep?) && forall k :: 0 <= k < |b| ==> !b[k].Sweep?
    ensures WithoutSweeps(a + ([mv] + b)) == a + b
  {
    SweeplessConcat(a, [mv] + b);
    DropSweep(mv, b);
    Sweepless(a);
    Sweepless(b);
  }

  /** The run from the start is one within the bound. */
  ghost predicate Within(mvs: seq<Move>, since: real, d: real) {
    Timely(EMPTY, mvs, since, d)
  }

  /** The run is answered as it would be without its sweeps. */
  ghost predicate Unobservable(mvs: seq<Move>) {
    Answers(EMPTY, mvs) == Answers(EMPTY, WithoutSweeps(mvs))
  }

  lemma SweepIsSeen(before: seq<Move>, s: Sys, a: seq<Move>, mv: Move, b: seq<Move>)
    requires AfterAll(EMPTY, before) == s && Answers(AfterAll(s, a), [mv] + b) != Answers(AfterAll(s, a), b)
    requires mv.Sweep? && (forall k :: 0 <= k < |before + a| ==> !(before + a)[k].Sweep?) && forall k :: 0 <= k < |b| ==> !b[k].Sweep?
    ensures !Unobservable(before + (a + ([mv] + b)))
  {
    EndsDiffer(s, a, [mv] + b, b);
    EndsDiffer(EMPTY, before, a + ([mv] + b), a + b);
    assert WithoutSweeps(before + (a + ([mv] + b))) == before + (a + b) by {
      OneSweep(before + a, mv, b);
      Associate(before, a, [mv] + b);
      Associate(before, a, b);
    }
  }

  lemma Associate(a: seq<Move>, b: seq<Move>, c: seq<Move>)
    ensures (a + b) + c == a + (b + c)
  {
  }

  /** For every bound above 299 s there is a run, with no call longer than the bound, in which the client
      is answered differently because the janitor ran, and in which some window of T seconds admits 40
      requests, more than 20 + 10 T. */
  lemma SlowCallsRevealEviction(d: real) returns (before: seq<Move>, window: seq<Move>, from: real, length: real)
    requires d > LIMIT
    ensures Within(before + window, 0.0, d) && !Unobservable(before + window)
    ensures length >= 0.0 && (forall k :: 0 <= k < |window| ==> from <= window[k].at <= from + length)
    ensures Admitted(AfterAll(EMPTY, before), window, IP) as real > 20.0 + 10.0 * length
  {
    var e, n := if d < 300.0 then d else 300.0, 20;
    var t := e + 301.0;
    before := Opens(e, n, d);
    var a := Drains(e, n);
    var b := SweepShows(e, n, t);
    window, from, length := a + ([Sweep(t, t)] + b), 2.0 * e, 301.0 - e;
    assert Within(before + window, 0.0, d) by {
      ClosingIsTimely(e, n, d, a, t, b);
      TimelyConcat(EMPTY, before, window, 0.0, e, d);
    }
    SweepIsSeen(before, Crowded(e, n), a, Sweep(t, t), b);
    assert Admitted(Crowded(e, n), window, IP) == 40 by {
      RunConcat(Crowded(e, n), a, [Sweep(t, t)] + b);
    }
  }

  /** Eviction is unobservable in all runs whose calls take at most `d` iff d is at most 299 s. */
  lemma EvictionIsUnobservableIff(d: real)
    requires d >= 0.0
    ensures (forall mvs, since :: Within(mvs, since, d) ==> Unobservable(mvs)) <==> d <= 299.0
  {
    if d <= LIMIT {
      forall mvs, since | Within(mvs, since, d) ensures Unobservable(mvs) {
        EvictionIsUnobservable(mvs, since, d);
      }
    } else {
      var before, window, from, length := SlowCallsRevealEviction(d);
    }
  }
}
