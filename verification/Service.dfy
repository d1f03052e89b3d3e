/**
 The service layer's calls one at a time: the seat cache as the object it is, and a write as
 "retry, then invalidate" (internal/booking/seatcache.go, hold.go, confirm.go, cancel.go). A load
 with nothing interleaved is shown to be a path of the machine of module SeatCache.
 */
module ServiceModel {
  import opened Options
  import opened Paths
  import opened SeatCache
  import Retry

  /** What `load` answers; `None` is the loader's error. */
  type Reply = Option<Entry>

  function FreshIn(items: map<string, Entry>, m: string, now: Time, ttl: Time): Option<Entry> {
    if m in items && now <= items[m].stamp + ttl then Some(items[m]) else None
  }

  /** The cache after a load and its reply: a hit, a hit of the re-check, the loader's error, or a put.
      `t1`, `t2` and `t3` are the clock at the first look, at the re-check and at the put. */
  function AfterLoad(items: map<string, Entry>, m: string, ttl: Time, t1: Time, t2: Time, t3: Time,
                     loaded: Option<nat>, flight: nat): (map<string, Entry>, Reply)
  {
    if FreshIn(items, m, t1, ttl).Some? then (items, FreshIn(items, m, t1, ttl))
    else if FreshIn(items, m, t2, ttl).Some? then (items, FreshIn(items, m, t2, ttl))
    else if loaded.None? then (items, None)
    else (items[m := Entry(loaded.value, flight, t3)], Some(Entry(loaded.value, flight, t3)))
  }

  class Cache {
    const ttl: Time
    var items: map<string, Entry>
    var loads: nat

    constructor (ttl: Time)
      ensures this.ttl == ttl && items == map[] && loads == 0
    {
      this.ttl := ttl;
      items, loads := map[], 0;
    }

    method Get(m: string, now: Time) returns (found: Option<Entry>)
      ensures found == FreshIn(items, m, now, ttl)
    {
      if m !in items || now > items[m].stamp + ttl {
        return None;
      }
      return Some(items[m]);
    }

    method Put(m: string, version: nat, flight: nat, now: Time) returns (entry: Entry)
      modifies this`items
      ensures entry == Entry(version, flight, now) && items == old(items)[m := entry]
    {
      entry := Entry(version, flight, now);
      items := items[m := entry];
    }

    method Invalidate(m: string)
      modifies this`items
      ensures items == old(items) - {m}
    {
      items := items - {m};
    }

    /** `load` for a caller that nobody races with. The loader runs only after two misses. */
    method Load(m: string, t1: Time, t2: Time, t3: Time, loaded: Option<nat>, flight: nat) returns (reply: Reply)
      modifies this
      ensures (items, reply) == AfterLoad(old(items), m, ttl, t1, t2, t3, loaded, flight)
      ensures loads == old(loads) +
              if FreshIn(old(items), m, t1, ttl).None? && FreshIn(old(items), m, t2, ttl).None? then 1 else 0
    {
      var hit := Get(m, t1);
      if hit.Some? {
        return hit;
      }
      hit := Get(m, t2);
      if hit.Some? {
        return hit;
      }
      loads := loads + 1;
      if loaded.None? {
        return None;
      }
      var entry := Put(m, loaded.value, flight, t3);
      return Some(entry);
    }

    /** A write of the service: the store's call under retry, then, if it succeeded, the invalidate. */
    method Write<T, E>(m: string, maxRetries: int, fn: nat -> Retry.Outcome<T, E>, done: nat -> bool, woken: nat -> bool,
                       nap: nat -> int)
        returns (r: Retry.Result<T, E>, calls: nat)
      modifies this`items
      ensures calls <= Retry.Max(0, maxRetries) + 1
      ensures forall k :: 0 <= k < calls - 1 ==> fn(k).Retryable?
      ensures r.Success? <==> calls > 0 && fn(calls - 1).Ok?
      ensures r.Success? ==> forall now :: FreshIn(items, m, now, ttl).None?
      ensures forall p :: p != m || !r.Success? ==>
                (p in items <==> p in old(items)) && (p in items ==> items[p] == old(items[p]))
    {
      var slept;
      r, calls, slept := Retry.WithRetry(maxRetries, fn, done, woken, nap);
      if r.Success? {
        Invalidate(m);
      }
    }
  }

  // ---------------------------------------------------------------- a lone load is a path of the machine

  lemma TickEnabled(s: State, ttl: Time, c: Time)
    requires s.clock <= c
    ensures IsPath(Steps(ttl), [s, s.(clock := c)], [Tick(c)])
  {
    assert Next(s, ttl, Tick(c), s.(clock := c));
  }

  /** A reader that misses, with no flight of its match running, starts one. */
  lemma ReaderTakesOff(s: State, ttl: Time, m: string) returns (ss: seq<State>, mvs: seq<Move>)
    requires m !in s.group && FreshIn(s.items, m, s.clock, ttl).None?
    ensures IsPath(Steps(ttl), ss, mvs) && ss[0] == s
    ensures ss[|mvs|] == s.(readers := s.readers[s.nextReader := Reader(m, Waiting(s.nextFlight))], nextReader := s.nextReader + 1,
                            group := s.group[m := s.nextFlight], nextFlight := s.nextFlight + 1,
                            flights := s.flights[s.nextFlight := Flight(m, Starting, Version(s, m))])
  {
    var r, f := s.nextReader, s.nextFlight;
    var s1 := s.(readers := s.readers[r := Reader(m, Peeked(Cached(s, m)))], nextReader := r + 1);
    var s2 := s1.(readers := s1.readers[r := Reader(m, Missed)]);
    var s3 := s2.(readers := s2.readers[r := Reader(m, Waiting(f))], group := s2.group[m := f],
                  flights := s2.flights[f := Flight(m, Starting, Version(s2, m))], nextFlight := f + 1);
    assert NextReader(s, ttl, Peek(m), s1);
    assert NextReader(s1, ttl, Judge(r), s2);
    assert NextReader(s2, ttl, Join(r), s3);
    ss, mvs := [s, s1, s2, s3], [Peek(m), Judge(r), Join(r)];
    assert s3.readers == s.readers[r := Reader(m, Waiting(f))];
  }

  lemma RecheckEnabled(s: State, ttl: Time, f: nat)
    requires f in s.flights && s.flights[f].pc.Starting?
    ensures IsPath(Steps(ttl), [s, Flying(s, f, Rechecked(Cached(s, s.flights[f].m)))], [Recheck(f)])
  {
    assert NextFlight(s, ttl, Recheck(f), Flying(s, f, Rechecked(Cached(s, s.flights[f].m))));
  }

  /** A miss gets its reader to a flight of its own that has looked again. */
  lemma MissFlies(s: State, ttl: Time, m: string, t2: Time) returns (ss: seq<State>, mvs: seq<Move>)
    requires m !in s.group && s.clock <= t2 && FreshIn(s.items, m, s.clock, ttl).None?
    ensures IsPath(Steps(ttl), ss, mvs) && ss[0] == s
    ensures var s' := ss[|mvs|];
            && s'.items == s.items && s'.commits == s.commits && s'.clock == t2
            && s.nextFlight in s'.flights && s'.flights[s.nextFlight].m == m
            && s'.flights[s.nextFlight].pc == Rechecked(Cached(s, m))
            && s.nextReader in s'.readers && s'.readers[s.nextReader] == Reader(m, Waiting(s.nextFlight))
  {
    var f := s.nextFlight;
    ss, mvs := ReaderTakesOff(s, ttl, m);
    var s3 := ss[|mvs|];
    RecheckEnabled(s3, ttl, f);
    var s4 := Flying(s3, f, Rechecked(Cached(s3, m)));
    Extend(Steps(ttl), ss, mvs, Recheck(f), s4);
    ss, mvs := ss + [s4], mvs + [Recheck(f)];
    TickEnabled(s4, ttl, t2);
    Extend(Steps(ttl), ss, mvs, Tick(t2), s4.(clock := t2));
    ss, mvs := ss + [s4.(clock := t2)], mvs + [Tick(t2)];
  }

  lemma MissLoads(s: State, ttl: Time, f: nat)
    requires f in s.flights && s.flights[f].pc.Rechecked? && !Fresh(s.flights[f].pc.found, s.clock, ttl)
    ensures IsPath(Steps(ttl), [s, Flying(s, f, Loading)], [Decide(f)])
  {
    assert NextFlight(s, ttl, Decide(f), Flying(s, f, Loading));
  }

  /** The flight goes to the loader, fails, and hands its waiter the error. */
  lemma FailedFlightAnswers(s: State, ttl: Time, f: nat, r: nat) returns (ss: seq<State>, mvs: seq<Move>)
    requires f in s.flights && s.flights[f].pc.Loading? && r in s.readers && s.readers[r].pc == Waiting(f)
    ensures IsPath(Steps(ttl), ss, mvs) && ss[0] == s && |mvs| > 0 && mvs[|mvs| - 1] == Deliver(r)
    ensures ss[|mvs|].items == s.items && f in ss[|mvs| - 1].flights && ss[|mvs| - 1].flights[f].pc == Finished(LoadError)
  {
    var s2 := Flying(s, f, Returned(LoadError));
    var s3 := Flying(s2, f, Finished(LoadError)).(
                group := if s.flights[f].m in s.group && s.group[s.flights[f].m] == f then s.group - {s.flights[f].m} else s.group);
    var s4 := s3.(readers := s3.readers - {r});
    assert NextFlight(s, ttl, Fail(f), s2);
    assert NextFlight(s2, ttl, Finish(f), s3);
    assert NextReader(s3, ttl, Deliver(r), s4);
    ss, mvs := [s, s2, s3, s4], [Fail(f), Finish(f), Deliver(r)];
  }

  /** The flight loads the match's current state and stamps it at `t3`. */
  lemma FlightStamps(s: State, ttl: Time, f: nat, t3: Time) returns (ss: seq<State>, mvs: seq<Move>)
    requires f in s.flights && s.flights[f].pc.Loading? && s.clock <= t3
    ensures IsPath(Steps(ttl), ss, mvs) && ss[0] == s
    ensures ss[|mvs|] == Flying(s, f, Stamped(Entry(Version(s, s.flights[f].m), f, t3))).(clock := t3)
  {
    var u := Version(s, s.flights[f].m);
    var s2 := Flying(s, f, Snapped(u));
    var s3 := s2.(clock := t3);
    var s4 := Flying(s3, f, Stamped(Entry(u, f, t3)));
    assert NextFlight(s, ttl, Snapshot(f), s2);
    assert Next(s2, ttl, Tick(t3), s3);
    assert NextFlight(s3, ttl, Stamp(f), s4);
    ss, mvs := [s, s2, s3, s4], [Snapshot(f), Tick(t3), Stamp(f)];
    assert s4 == Flying(s, f, Stamped(Entry(u, f, t3))).(clock := t3);
  }

  /** The flight stores its entry and hands it to its waiter. */
  lemma StampedFlightAnswers(s: State, ttl: Time, f: nat, r: nat) returns (ss: seq<State>, mvs: seq<Move>)
    requires f in s.flights && s.flights[f].pc.Stamped? && r in s.readers && s.readers[r].pc == Waiting(f)
    ensures IsPath(Steps(ttl), ss, mvs) && ss[0] == s && |mvs| > 0
    ensures ss[|mvs|].items == s.items[s.flights[f].m := s.flights[f].pc.entry]
    ensures Answers(ss[|mvs| - 1], ttl, mvs[|mvs| - 1], r, s.flights[f].pc.entry)
  {
    var e := s.flights[f].pc.entry;
    var s1 := Flying(s, f, Returned(Loaded(e))).(items := s.items[s.flights[f].m := e]);
    var s2 := Flying(s1, f, Finished(Loaded(e))).(
                group := if s.flights[f].m in s.group && s.group[s.flights[f].m] == f then s.group - {s.flights[f].m} else s.group);
    var s3 := s2.(readers := s2.readers - {r});
    assert NextFlight(s, ttl, Put(f), s1);
    assert NextFlight(s1, ttl, Finish(f), s2);
    assert NextReader(s2, ttl, Deliver(r), s3);
    ss, mvs := [s, s1, s2, s3], [Put(f), Finish(f), Deliver(r)];
  }

  lemma HitAnswers(s: State, ttl: Time, m: string) returns (ss: seq<State>, mvs: seq<Move>)
    requires FreshIn(s.items, m, s.clock, ttl).Some?
    ensures IsPath(Steps(ttl), ss, mvs) && ss[0] == s && |mvs| > 0 && ss[|mvs|].items == s.items
    ensures Answers(ss[|mvs| - 1], ttl, mvs[|mvs| - 1], s.nextReader, s.items[m])
  {
    var r := s.nextReader;
    var s1 := s.(readers := s.readers[r := Reader(m, Peeked(Cached(s, m)))], nextReader := r + 1);
    var s2 := s1.(readers := s1.readers - {r});
    assert NextReader(s, ttl, Peek(m), s1);
    assert NextReader(s1, ttl, Judge(r), s2);
    ss, mvs := [s, s1, s2], [Peek(m), Judge(r)];
  }

  /** The path ends with the entries and the answer that `Load` leaves and gives. */
  ghost predicate EndsLikeLoad(s: State, ttl: Time, after: (map<string, Entry>, Reply), ss: seq<State>, mvs: seq<Move>) {
    && IsPath(Steps(ttl), ss, mvs) && ss[0] == s && |mvs| > 0 && ss[|mvs|].items == after.0
    && match after.1
       case Some(e) => Answers(ss[|mvs| - 1], ttl, mvs[|mvs| - 1], s.nextReader, e)
       case None => mvs[|mvs| - 1] == Deliver(s.nextReader) && s.nextFlight in ss[|mvs| - 1].flights
                    && ss[|mvs| - 1].flights[s.nextFlight].pc == Finished(LoadError)
  }

  lemma MissEnds(s: State, ttl: Time, m: string, t2: Time, t3: Time, fails: bool)
      returns (ss: seq<State>, mvs: seq<Move>)
    requires m !in s.group && s.clock <= t2 <= t3 && FreshIn(s.items, m, s.clock, ttl).None?
    ensures var e := Entry(Version(s, m), s.nextFlight, t3);
            EndsLikeLoad(s, ttl, if fails then (s.items, None) else (s.items[m := e], Some(e)), ss, mvs)
  {
    var r, f := s.nextReader, s.nextFlight;
    ss, mvs := MissFlies(s, ttl, m, t2);
    MissLoads(ss[|mvs|], ttl, f);
    var p := Flying(ss[|mvs|], f, Loading);
    Extend(Steps(ttl), ss, mvs, Decide(f), p);
    ss, mvs := ss + [p], mvs + [Decide(f)];
    var ts, nvs;
    if fails {
      ts, nvs := FailedFlightAnswers(p, ttl, f, r);
    } else {
      ts, nvs := FlightStamps(p, ttl, f, t3);
      Chain(Steps(ttl), ss, mvs, ts, nvs);
      ss, mvs := ss + ts[1..], mvs + nvs;
      ts, nvs := StampedFlightAnswers(ts[|nvs|], ttl, f, r);
    }
    Chain(Steps(ttl), ss, mvs, ts, nvs);
    assert (ss + ts[1..])[|mvs + nvs| - 1] == ts[|nvs| - 1] && (mvs + nvs)[|mvs + nvs| - 1] == nvs[|nvs| - 1];
    ss, mvs := ss + ts[1..], mvs + nvs;
  }

  /** Whatever else is going on, if no flight of the match is running and the match is not written to,
      a load that nobody interrupts is a path of the machine: it leaves the entries, and answers its
      reader, as the method `Load` does. */
  lemma LoneLoadIsAPath(s: State, ttl: Time, m: string, t2: Time, t3: Time, fails: bool)
      returns (ss: seq<State>, mvs: seq<Move>)
    requires m !in s.group && s.clock <= t2 <= t3
    ensures EndsLikeLoad(s, ttl, AfterLoad(s.items, m, ttl, s.clock, t2, t3, if fails then None else Some(Version(s, m)), s.nextFlight), ss, mvs)
  {
    if FreshIn(s.items, m, s.clock, ttl).Some? {
      ss, mvs := HitAnswers(s, ttl, m);
    } else {
      ss, mvs := MissEnds(s, ttl, m, t2, t3, fails);
    }
  }
}
