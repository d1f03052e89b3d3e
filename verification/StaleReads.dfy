/**
 Exactly when a read after a write's invalidate can miss the write: when, at the invalidate, the
 running flight of the match still carries an older snapshot.
 */
module StaleReads {
  import opened Options
  import opened Paths
  import opened SeatCache

  // ---------------------------------------------------------------- a late reader joins the flight

  /** A reader that finds the match invalidated joins the running flight. */
  lemma ReaderJoins(s: State, ttl: Time, m: string, f: nat) returns (ss: seq<State>, mvs: seq<Move>)
    requires m !in s.items && m in s.group && s.group[m] == f
    ensures IsPath(Steps(ttl), ss, mvs) && ss[0] == s && |mvs| > 0
    ensures ss[|mvs|] == s.(readers := s.readers[s.nextReader := Reader(m, Waiting(f))], nextReader := s.nextReader + 1)
  {
    var r := s.nextReader;
    var s1 := s.(readers := s.readers[r := Reader(m, Peeked(None))], nextReader := r + 1);
    var s2 := s1.(readers := s1.readers[r := Reader(m, Missed)]);
    var s3 := s2.(readers := s2.readers[r := Reader(m, Waiting(f))]);
    assert NextReader(s, ttl, Peek(m), s1);
    assert NextReader(s1, ttl, Judge(r), s2);
    assert NextReader(s2, ttl, Join(r), s3);
    ss, mvs := [s, s1, s2, s3], [Peek(m), Judge(r), Join(r)];
    assert s3.readers == s.readers[r := Reader(m, Waiting(f))];
  }

  // ---------------------------------------------------------------- the flight hands out what it carries

  /** Flight `f` has returned entry `e`. */
  ghost predicate HasReturned(s: State, f: nat, e: Entry) {
    f in s.flights && s.flights[f].pc == Returned(Loaded(e))
  }

  /** Nothing of `s` but the flight `f` and the cached entries has changed in `s'`. */
  ghost predicate SameReaders(s: State, s': State) {
    s'.readers == s.readers && s'.nextReader == s.nextReader
  }

  lemma RecheckedReturns(s: State, ttl: Time, f: nat) returns (s': State)
    requires f in s.flights && s.flights[f].pc.Rechecked? && Fresh(s.flights[f].pc.found, s.clock, ttl)
    ensures IsPath(Steps(ttl), [s, s'], [Decide(f)])
    ensures HasReturned(s', f, s.flights[f].pc.found.value) && SameReaders(s, s') && s'.flights[f].m == s.flights[f].m
  {
    s' := Flying(s, f, Returned(Loaded(s.flights[f].pc.found.value)));
    assert NextFlight(s, ttl, Decide(f), s');
  }

  lemma StampedReturns(s: State, ttl: Time, f: nat) returns (s': State)
    requires f in s.flights && s.flights[f].pc.Stamped?
    ensures IsPath(Steps(ttl), [s, s'], [Put(f)])
    ensures HasReturned(s', f, s.flights[f].pc.entry) && SameReaders(s, s') && s'.flights[f].m == s.flights[f].m
  {
    var e := s.flights[f].pc.entry;
    s' := Flying(s, f, Returned(Loaded(e))).(items := s.items[s.flights[f].m := e]);
    assert NextFlight(s, ttl, Put(f), s');
  }

  lemma SnappedStamps(s: State, ttl: Time, f: nat) returns (s': State)
    requires f in s.flights && s.flights[f].pc.Snapped?
    ensures IsPath(Steps(ttl), [s, s'], [Stamp(f)])
    ensures f in s'.flights && s'.flights[f] == s.flights[f].(pc := Stamped(Entry(s.flights[f].pc.version, f, s.clock)))
    ensures SameReaders(s, s')
  {
    s' := Flying(s, f, Stamped(Entry(s.flights[f].pc.version, f, s.clock)));
    assert NextFlight(s, ttl, Stamp(f), s');
  }

  /** Wherever it is, a flight that carries an older snapshot can go on to return it. */
  lemma CarrierReturns(s: State, ttl: Time, f: nat, v: nat) returns (ss: seq<State>, mvs: seq<Move>, e: Entry)
    requires CarriesOlder(s, ttl, f, v)
    ensures IsPath(Steps(ttl), ss, mvs) && ss[0] == s && SameReaders(s, ss[|mvs|])
    ensures HasReturned(ss[|mvs|], f, e) && e.version < v
  {
    match s.flights[f].pc
    case Rechecked(found) =>
      var s' := RecheckedReturns(s, ttl, f);
      ss, mvs, e := [s, s'], [Decide(f)], found.value;
    case Snapped(u) =>
      var s1 := SnappedStamps(s, ttl, f);
      var s2 := StampedReturns(s1, ttl, f);
      Extend(Steps(ttl), [s, s1], [Stamp(f)], Put(f), s2);
      ss, mvs, e := [s, s1] + [s2], [Stamp(f)] + [Put(f)], Entry(u, f, s.clock);
    case Stamped(x) =>
      var s' := StampedReturns(s, ttl, f);
      ss, mvs, e := [s, s'], [Put(f)], x;
    case Returned(out) =>
      ss, mvs, e := [s], [], out.entry;
  }

  lemma FinishEnabled(s: State, ttl: Time, f: nat, e: Entry) returns (s': State)
    requires HasReturned(s, f, e)
    ensures IsPath(Steps(ttl), [s, s'], [Finish(f)]) && SameReaders(s, s')
    ensures f in s'.flights && s'.flights[f].pc == Finished(Loaded(e))
  {
    s' := Flying(s, f, Finished(Loaded(e))).(
            group := if s.flights[f].m in s.group && s.group[s.flights[f].m] == f then s.group - {s.flights[f].m} else s.group);
    assert NextFlight(s, ttl, Finish(f), s');
  }

  lemma DeliveryEnabled(s: State, ttl: Time, r: nat, f: nat, e: Entry)
    requires r in s.readers && s.readers[r].pc == Waiting(f) && f in s.flights && s.flights[f].pc == Finished(Loaded(e))
    ensures IsPath(Steps(ttl), [s, s.(readers := s.readers - {r})], [Deliver(r)])
    ensures SeatCache.Answers(s, ttl, Deliver(r), r, e)
  {
    assert NextReader(s, ttl, Deliver(r), s.(readers := s.readers - {r}));
  }

  // ---------------------------------------------------------------- the whole continuation

  /** The path ends by answering reader `r` of match `m` with `e`. */
  ghost predicate EndsAnswering(ss: seq<State>, ttl: Time, mvs: seq<Move>, m: string, r: nat, e: Entry) {
    && IsPath(Steps(ttl), ss, mvs) && |mvs| > 0
    && r in ss[|mvs| - 1].readers && ss[|mvs| - 1].readers[r].m == m && SeatCache.Answers(ss[|mvs| - 1], ttl, mvs[|mvs| - 1], r, e)
  }

  lemma WaiterIsServed(s: State, ttl: Time, m: string, f: nat, v: nat, r: nat) returns (ss: seq<State>, mvs: seq<Move>, e: Entry)
    requires CarriesOlder(s, ttl, f, v) && r in s.readers && s.readers[r] == Reader(m, Waiting(f))
    ensures EndsAnswering(ss, ttl, mvs, m, r, e) && ss[0] == s && e.version < v
  {
    ss, mvs, e := CarrierReturns(s, ttl, f, v);
    var s1 := FinishEnabled(ss[|mvs|], ttl, f, e);
    Extend(Steps(ttl), ss, mvs, Finish(f), s1);
    ss, mvs := ss + [s1], mvs + [Finish(f)];
    DeliveryEnabled(s1, ttl, r, f, e);
    Extend(Steps(ttl), ss, mvs, Deliver(r), s1.(readers := s1.readers - {r}));
    ss, mvs := ss + [s1.(readers := s1.readers - {r})], mvs + [Deliver(r)];
  }

  /** From an invalidated match whose running flight carries an older snapshot, a new reader gets it. */
  lemma NewReaderIsServed(s: State, ttl: Time, m: string, f: nat, v: nat) returns (ss: seq<State>, mvs: seq<Move>, e: Entry)
    requires m !in s.items && m in s.group && s.group[m] == f && CarriesOlder(s, ttl, f, v)
    ensures EndsAnswering(ss, ttl, mvs, m, s.nextReader, e) && ss[0] == s && e.version < v
  {
    var r := s.nextReader;
    ss, mvs := ReaderJoins(s, ttl, m, f);
    var ts, nvs;
    ts, nvs, e := WaiterIsServed(ss[|mvs|], ttl, m, f, v, r);
    Chain(Steps(ttl), ss, mvs, ts, nvs);
    var us, ovs := ss + ts[1..], mvs + nvs;
    assert us[|ovs| - 1] == ts[|nvs| - 1] && ovs[|ovs| - 1] == nvs[|nvs| - 1];
    ss, mvs := us, ovs;
  }

  lemma RunGoesOn(ss: seq<State>, ttl: Time, mvs: seq<Move>, ts: seq<State>, nvs: seq<Move>)
    requires IsRun(ss, ttl, mvs) && IsPath(Steps(ttl), ts, nvs) && ts[0] == ss[|mvs|]
    ensures IsRun(ss + ts[1..], ttl, mvs + nvs)
  {
    var us, ovs := ss + ts[1..], mvs + nvs;
    forall k | 0 <= k < |ovs| ensures Next(us[k], ttl, ovs[k], us[k + 1]) {
      if k >= |mvs| {
        StepAt(Steps(ttl), ts, nvs, k - |mvs|);
      }
    }
  }

  lemma CarrierIsRegistered(s: State, ttl: Time, m: string, f: nat, v: nat, s': State)
    requires Inv(s) && Next(s, ttl, Invalidate(m), s') && f in Carriers(s, ttl, m, v)
    ensures m !in s'.items && m in s'.group && s'.group[m] == f && CarriesOlder(s', ttl, f, v)
  {
    assert FlightOk(s, f);
  }

  lemma CarrierStaysRegistered(ss: seq<State>, ttl: Time, mvs: seq<Move>, i: nat, m: string, f: nat, v: nat)
    requires IsRun(ss, ttl, mvs) && i < |mvs| && mvs[i] == Invalidate(m) && f in Carriers(ss[i], ttl, m, v)
    ensures m !in ss[i + 1].items && m in ss[i + 1].group && ss[i + 1].group[m] == f && CarriesOlder(ss[i + 1], ttl, f, v)
    ensures ss[i + 1].nextReader == ss[i].nextReader
  {
    RunKeepsInv(ss, ttl, mvs, i);
    assert Next(ss[i], ttl, mvs[i], ss[i + 1]);
    CarrierIsRegistered(ss[i], ttl, m, f, v, ss[i + 1]);
  }

  /** Some way on from the run answers a reader that comes after the invalidate at move `i` from before
      commit `v`. */
  ghost predicate CanServeOlder(ss: seq<State>, ttl: Time, mvs: seq<Move>, i: nat, m: string, v: nat) {
    exists ts, nvs, j, r, e ::
      IsRun(ts, ttl, nvs) && ss <= ts && mvs <= nvs && ServesOlder(ts, ttl, nvs, i, m, v, j, r, e)
  }

  lemma CarrierServesOlder(ss: seq<State>, ttl: Time, mvs: seq<Move>, m: string, v: nat, f: nat)
      returns (ts: seq<State>, nvs: seq<Move>, j: nat, r: nat, e: Entry)
    requires IsRun(ss, ttl, mvs) && |mvs| > 0 && mvs[|mvs| - 1] == Invalidate(m) && f in Carriers(ss[|mvs| - 1], ttl, m, v)
    ensures IsRun(ts, ttl, nvs) && ss <= ts && mvs <= nvs && ServesOlder(ts, ttl, nvs, |mvs| - 1, m, v, j, r, e)
  {
    var i := |mvs| - 1;
    CarrierStaysRegistered(ss, ttl, mvs, i, m, f, v);
    var us, ovs;
    us, ovs, e := NewReaderIsServed(ss[i + 1], ttl, m, f, v);
    RunGoesOn(ss, ttl, mvs, us, ovs);
    ts, nvs := ss + us[1..], mvs + ovs;
    j, r := |nvs| - 1, ss[i + 1].nextReader;
    assert ts[j] == us[|ovs| - 1] && nvs[j] == ovs[|ovs| - 1] && ts[i] == ss[i];
  }

  /** A run that ends with the invalidate of a write can go on to hide the write from a later reader iff
      at the invalidate a flight of the match carried an older snapshot. */
  lemma StaleReadIff(ss: seq<State>, ttl: Time, mvs: seq<Move>, m: string, v: nat)
    requires IsRun(ss, ttl, mvs) && |mvs| > 0 && mvs[|mvs| - 1] == Invalidate(m) && v <= Version(ss[|mvs| - 1], m)
    ensures CanServeOlder(ss, ttl, mvs, |mvs| - 1, m, v) <==> Carriers(ss[|mvs| - 1], ttl, m, v) != {}
  {
    var i := |mvs| - 1;
    if f :| f in Carriers(ss[i], ttl, m, v) {
      var ts, nvs, j, r, e := CarrierServesOlder(ss, ttl, mvs, m, v, f);
    }
    if CanServeOlder(ss, ttl, mvs, i, m, v) {
      var ts, nvs, j: nat, r: nat, e :|
        IsRun(ts, ttl, nvs) && ss <= ts && mvs <= nvs && ServesOlder(ts, ttl, nvs, i, m, v, j, r, e);
      assert ts[i] == ss[i] && nvs[i] == mvs[i];
      if Carriers(ts[i], ttl, m, v) == {} {
        SeatCache.ReadYourWrites(ts, ttl, nvs, i, j, m, v, r, e);
      }
    }
  }

  // ---------------------------------------------------------------- a run that hides a write

  const EMPTY := State(0, map[], map[], map[], map[], map[], 0, 0)

  /** A load has taken its snapshot; then a write commits. */
  function Scene(k: nat): State {
    var missed, asked := map[0 := Reader("m", Missed)], map[0 := Reader("m", Waiting(0))];
    if k == 0 then EMPTY
    else if k == 1 then EMPTY.(readers := map[0 := Reader("m", Peeked(None))], nextReader := 1)
    else if k == 2 then EMPTY.(readers := missed, nextReader := 1)
    else if k == 3 then Loading'(asked, Starting, map[])
    else if k == 4 then Loading'(asked, Rechecked(None), map[])
    else if k == 5 then Loading'(asked, Loading, map[])
    else if k == 6 then Loading'(asked, Snapped(0), map[])
    else Loading'(asked, Snapped(0), map["m" := 1])
  }

  function Loading'(readers: map<nat, Reader>, pc: FlightPc, commits: map<string, nat>): State {
    State(0, commits, map[], map["m" := 0], map[0 := Flight("m", pc, 0)], readers, 1, 1)
  }

  const STORY := [Peek("m"), Judge(0), Join(0), Recheck(0), Decide(0), Snapshot(0), Commit("m"), Invalidate("m")]

  lemma StoryBegins(ttl: Time, k: nat)
    requires k < 3
    ensures Next(Scene(k), ttl, STORY[k], Scene(k + 1))
  {
  }

  lemma StoryGoesOn(ttl: Time, k: nat)
    requires 3 <= k < 6
    ensures Next(Scene(k), ttl, STORY[k], Scene(k + 1))
  {
  }

  lemma StoryEnds(ttl: Time, k: nat)
    requires 6 <= k < 8
    ensures Next(Scene(k), ttl, STORY[k], Scene(k + 1))
  {
  }

  /** Read-your-writes is not immediate: from the initial state, a run whose write committed and
      invalidated (move 7) answers a later reader from before the write. */
  lemma InFlightLoadCanBeServed(ttl: Time) returns (ss: seq<State>, mvs: seq<Move>, j: nat, r: nat, e: Entry)
    ensures IsRun(ss, ttl, mvs) && |mvs| > 7 && mvs[6] == Commit("m") && mvs[7] == Invalidate("m") && Version(ss[7], "m") == 1
    ensures ServesOlder(ss, ttl, mvs, 7, "m", 1, j, r, e)
  {
    var ts := seq(9, k requires 0 <= k < 9 => Scene(k));
    forall k | 0 <= k < 8 ensures Next(ts[k], ttl, STORY[k], ts[k + 1]) {
      if k < 3 {
        StoryBegins(ttl, k);
      } else if k < 6 {
        StoryGoesOn(ttl, k);
      } else {
        StoryEnds(ttl, k);
      }
    }
    assert 0 in Carriers(ts[7], ttl, "m", 1);
    ss, mvs, j, r, e := CarrierServesOlder(ts, ttl, STORY, "m", 1, 0);
    assert ss[7] == ts[7] && mvs[6] == STORY[6] && mvs[7] == STORY[7];
  }
}
