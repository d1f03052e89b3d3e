/**
 The seat cache with singleflight (internal/booking/seatcache.go), as the steps of its
 goroutines. Reading the map and comparing the clock are separate steps, and so are stamping an
 entry and storing it. `Commit` is a write to the match's seats; a snapshot is named by the
 number of commits it reflects.
 */
module SeatCache {
  import opened Options

  type Time = int

  /** A cached seat map: the snapshot it shows, the flight that loaded it, and the clock at its put. */
  datatype Entry = Entry(version: nat, flight: nat, stamp: Time)

  datatype Outcome = Loaded(entry: Entry) | LoadError

  /** Where the function run by a flight is. */
  datatype FlightPc =
    | Starting
    | Rechecked(found: Option<Entry>)
    | Loading
    | Snapped(version: nat)
    | Stamped(entry: Entry)
    | Returned(out: Outcome)
    | Finished(out: Outcome)

  /** `began` is history: the commits the match had when the flight started. */
  datatype Flight = Flight(m: string, pc: FlightPc, began: nat)

  datatype ReaderPc = Peeked(found: Option<Entry>) | Missed | Waiting(flight: nat)

  datatype Reader = Reader(m: string, pc: ReaderPc)

  datatype State = State(
    clock: Time,
    commits: map<string, nat>,
    items: map<string, Entry>,
    group: map<string, nat>,
    flights: map<nat, Flight>,
    readers: map<nat, Reader>,
    nextFlight: nat,
    nextReader: nat)

  datatype Move =
    | Tick(clock: Time)
    | Commit(m: string)
    | Invalidate(m: string)
    | Peek(m: string)
    | Judge(r: nat)
    | Join(r: nat)
    | GiveUp(r: nat)
    | Deliver(r: nat)
    | Recheck(f: nat)
    | Decide(f: nat)
    | Snapshot(f: nat)
    | Fail(f: nat)
    | Stamp(f: nat)
    | Put(f: nat)
    | Finish(f: nat)

  function Cached(s: State, m: string): Option<Entry> {
    if m in s.items then Some(s.items[m]) else None
  }

  function Version(s: State, m: string): nat {
    if m in s.commits then s.commits[m] else 0
  }

  /** The hit test of `get`: present and not After(expiresAt). */
  predicate Fresh(found: Option<Entry>, clock: Time, ttl: Time) {
    found.Some? && clock <= found.value.stamp + ttl
  }

  function Flying(s: State, f: nat, pc: FlightPc): State
    requires f in s.flights
  {
    s.(flights := s.flights[f := s.flights[f].(pc := pc)])
  }

  ghost predicate FlightAt(s: State, f: nat) {
    f in s.flights
  }

  ghost predicate NextReader(s: State, ttl: Time, mv: Move, s': State) {
    match mv
    case Peek(m) =>
      s' == s.(readers := s.readers[s.nextReader := Reader(m, Peeked(Cached(s, m)))], nextReader := s.nextReader + 1)
    case Judge(r) =>
      && r in s.readers && s.readers[r].pc.Peeked?
      && s' == if Fresh(s.readers[r].pc.found, s.clock, ttl) then s.(readers := s.readers - {r})
               else s.(readers := s.readers[r := s.readers[r].(pc := Missed)])
    case Join(r) =>
      && r in s.readers && s.readers[r].pc.Missed?
      && var m := s.readers[r].m;
         s' == if m in s.group then s.(readers := s.readers[r := Reader(m, Waiting(s.group[m]))])
               else s.(readers := s.readers[r := Reader(m, Waiting(s.nextFlight))],
                       group := s.group[m := s.nextFlight],
                       flights := s.flights[s.nextFlight := Flight(m, Starting, Version(s, m))],
                       nextFlight := s.nextFlight + 1)
    case GiveUp(r) => r in s.readers && s.readers[r].pc.Waiting? && s' == s.(readers := s.readers - {r})
    case Deliver(r) =>
      && r in s.readers && s.readers[r].pc.Waiting? && FlightAt(s, s.readers[r].pc.flight)
      && s.flights[s.readers[r].pc.flight].pc.Finished?
      && s' == s.(readers := s.readers - {r})
    case _ => false
  }

  ghost predicate NextFlight(s: State, ttl: Time, mv: Move, s': State) {
    match mv
    case Recheck(f) =>
      && FlightAt(s, f) && s.flights[f].pc.Starting?
      && s' == Flying(s, f, Rechecked(Cached(s, s.flights[f].m)))
    case Decide(f) =>
      && FlightAt(s, f) && s.flights[f].pc.Rechecked?
      && s' == Flying(s, f, if Fresh(s.flights[f].pc.found, s.clock, ttl)
                            then Returned(Loaded(s.flights[f].pc.found.value)) else Loading)
    case Snapshot(f) =>
      && FlightAt(s, f) && s.flights[f].pc.Loading?
      && s' == Flying(s, f, Snapped(Version(s, s.flights[f].m)))
    case Fail(f) =>
      && FlightAt(s, f) && (s.flights[f].pc.Loading? || s.flights[f].pc.Snapped?)
      && s' == Flying(s, f, Returned(LoadError))
    case Stamp(f) =>
      && FlightAt(s, f) && s.flights[f].pc.Snapped?
      && s' == Flying(s, f, Stamped(Entry(s.flights[f].pc.version, f, s.clock)))
    case Put(f) =>
      && FlightAt(s, f) && s.flights[f].pc.Stamped?
      && s' == Flying(s, f, Returned(Loaded(s.flights[f].pc.entry))).(
                 items := s.items[s.flights[f].m := s.flights[f].pc.entry])
    case Finish(f) =>
      && FlightAt(s, f) && s.flights[f].pc.Returned?
      && s' == Flying(s, f, Finished(s.flights[f].pc.out)).(
                 group := if s.flights[f].m in s.group && s.group[s.flights[f].m] == f
                          then s.group - {s.flights[f].m} else s.group)
    case _ => false
  }

  ghost predicate Next(s: State, ttl: Time, mv: Move, s': State) {
    match mv
    case Tick(c) => s.clock <= c && s' == s.(clock := c)
    case Commit(m) => s' == s.(commits := s.commits[m := Version(s, m) + 1])
    case Invalidate(m) => s' == s.(items := s.items - {m})
    case _ => NextReader(s, ttl, mv, s') || NextFlight(s, ttl, mv, s')
  }

  /** The transition relation for one TTL. */
  ghost function Steps(ttl: Time): (State, Move, State) -> bool {
    (s, mv, s') => Next(s, ttl, mv, s')
  }

  ghost predicate Init(s: State) {
    s.items == map[] && s.group == map[] && s.flights == map[] && s.readers == map[]
  }

  ghost predicate IsRun(ss: seq<State>, ttl: Time, mvs: seq<Move>) {
    && |ss| == |mvs| + 1
    && Init(ss[0])
    && forall k :: 0 <= k < |mvs| ==> Next(ss[k], ttl, mvs[k], ss[k + 1])
  }

  // ---------------------------------------------------------------- one flight per match

  predicate Running(x: Flight) {
    !x.pc.Finished?
  }

  /** A running flight is the one registered for its match, and an entry being stored is its own. */
  ghost predicate FlightOk(s: State, f: nat) {
    && f in s.flights && f < s.nextFlight
    && (Running(s.flights[f]) ==> s.flights[f].m in s.group && s.group[s.flights[f].m] == f)
    && (s.flights[f].pc.Stamped? ==> s.flights[f].pc.entry.flight == f && s.flights[f].pc.entry.stamp <= s.clock)
  }

  ghost predicate Inv(s: State) {
    && (forall f :: f in s.flights ==> FlightOk(s, f))
    && (forall m :: m in s.group ==>
          s.group[m] in s.flights && s.flights[s.group[m]].m == m && Running(s.flights[s.group[m]]))
    && (forall m :: m in s.items ==> s.items[m].flight < s.nextFlight)
    && (forall r :: r in s.readers ==> r < s.nextReader)
    && (forall r :: r in s.readers && s.readers[r].pc.Waiting? ==>
          s.readers[r].pc.flight in s.flights && s.flights[s.readers[r].pc.flight].m == s.readers[r].m)
  }

  lemma JoinKeepsInv(s: State, ttl: Time, r: nat, s': State)
    requires Inv(s) && NextReader(s, ttl, Join(r), s')
    ensures Inv(s')
  {
    forall f | f in s'.flights ensures FlightOk(s', f) {
      if f in s.flights {
        assert FlightOk(s, f);
      }
    }
    assert forall f :: f in s.flights ==> f < s.nextFlight;
  }

  lemma ReaderKeepsInv(s: State, ttl: Time, mv: Move, s': State)
    requires Inv(s) && NextReader(s, ttl, mv, s')
    ensures Inv(s')
  {
    if mv.Join? {
      JoinKeepsInv(s, ttl, mv.r, s');
    } else {
      forall f | f in s'.flights ensures FlightOk(s', f) {
        assert FlightOk(s, f);
      }
    }
  }

  lemma FlightKeepsInv(s: State, ttl: Time, mv: Move, s': State)
    requires Inv(s) && NextFlight(s, ttl, mv, s')
    ensures Inv(s')
  {
    assert FlightOk(s, mv.f);
    forall f | f in s'.flights ensures FlightOk(s', f) {
      assert FlightOk(s, f);
    }
  }

  lemma StepKeepsInv(s: State, ttl: Time, mv: Move, s': State)
    requires Inv(s) && Next(s, ttl, mv, s')
    ensures Inv(s')
  {
    if NextReader(s, ttl, mv, s') {
      ReaderKeepsInv(s, ttl, mv, s');
    } else if NextFlight(s, ttl, mv, s') {
      FlightKeepsInv(s, ttl, mv, s');
    } else {
      forall f | f in s'.flights ensures FlightOk(s', f) {
        assert FlightOk(s, f);
      }
    }
  }

  lemma {:induction false} RunKeepsInv(ss: seq<State>, ttl: Time, mvs: seq<Move>, k: nat)
    requires IsRun(ss, ttl, mvs) && k < |ss|
    ensures Inv(ss[k])
  {
    if k > 0 {
      RunKeepsInv(ss, ttl, mvs, k - 1);
      StepKeepsInv(ss[k - 1], ttl, mvs[k - 1], ss[k]);
    }
  }

  // ---------------------------------------------------------------- entries are snapshots

  /** The entry was loaded for this match by a flight, between that flight's start and now. */
  ghost predicate EntryOk(s: State, m: string, e: Entry) {
    && e.flight in s.flights && s.flights[e.flight].m == m
    && s.flights[e.flight].began <= e.version <= Version(s, m)
    && e.stamp <= s.clock
  }

  ghost predicate FoundOk(s: State, m: string, found: Option<Entry>) {
    found.Some? ==> EntryOk(s, m, found.value)
  }

  ghost predicate CarriedOk(s: State, x: Flight) {
    x.began <= Version(s, x.m) &&
    match x.pc
    case Rechecked(found) => FoundOk(s, x.m, found)
    case Snapped(u) => x.began <= u <= Version(s, x.m)
    case Stamped(e) => EntryOk(s, x.m, e)
    case Returned(out) => out.Loaded? ==> EntryOk(s, x.m, out.entry)
    case Finished(out) => out.Loaded? ==> EntryOk(s, x.m, out.entry)
    case _ => true
  }

  ghost predicate Snapshots(s: State) {
    && (forall m :: m in s.items ==> EntryOk(s, m, s.items[m]))
    && (forall f :: f in s.flights ==> CarriedOk(s, s.flights[f]))
    && (forall r :: r in s.readers && s.readers[r].pc.Peeked? ==> FoundOk(s, s.readers[r].m, s.readers[r].pc.found))
  }

  /** Flights keep their match and start, commit counts and the clock do not go back. */
  ghost predicate Later(s: State, s': State) {
    && (forall f :: f in s.flights ==> f in s'.flights && s'.flights[f].m == s.flights[f].m && s'.flights[f].began == s.flights[f].began)
    && (forall m :: Version(s, m) <= Version(s', m))
    && s.clock <= s'.clock
  }

  lemma ReaderIsLater(s: State, ttl: Time, mv: Move, s': State)
    requires s.nextFlight !in s.flights && NextReader(s, ttl, mv, s')
    ensures Later(s, s')
  {
  }

  lemma FlightIsLater(s: State, ttl: Time, mv: Move, s': State)
    requires NextFlight(s, ttl, mv, s')
    ensures Later(s, s')
  {
  }

  lemma StepIsLater(s: State, ttl: Time, mv: Move, s': State)
    requires Inv(s) && Next(s, ttl, mv, s')
    ensures Later(s, s')
  {
    if NextReader(s, ttl, mv, s') {
      assert s.nextFlight in s.flights ==> FlightOk(s, s.nextFlight);
      ReaderIsLater(s, ttl, mv, s');
    } else if NextFlight(s, ttl, mv, s') {
      FlightIsLater(s, ttl, mv, s');
    }
  }

  lemma CarriedStays(s: State, s': State, x: Flight)
    requires CarriedOk(s, x) && Later(s, s')
    ensures CarriedOk(s', x)
  {
    assert Version(s, x.m) <= Version(s', x.m);
  }

  lemma FoundStays(s: State, s': State, m: string, found: Option<Entry>)
    requires FoundOk(s, m, found) && Later(s, s')
    ensures FoundOk(s', m, found)
  {
    assert Version(s, m) <= Version(s', m);
  }

  lemma FlightCarries(s: State, ttl: Time, mv: Move, s': State)
    requires Inv(s) && Snapshots(s) && NextFlight(s, ttl, mv, s')
    ensures CarriedOk(s', s'.flights[mv.f])
  {
    assert CarriedOk(s, s.flights[mv.f]);
  }

  /** Only a put brings an entry into the map. */
  lemma NewItemsArePut(s: State, ttl: Time, mv: Move, s': State, m: string)
    requires Next(s, ttl, mv, s') && m in s'.items && !(m in s.items && s'.items[m] == s.items[m])
    ensures mv.Put? && NextFlight(s, ttl, mv, s') && s.flights[mv.f].m == m && s'.items[m] == s.flights[mv.f].pc.entry
  {
  }

  lemma ItemsStaySnapshots(s: State, ttl: Time, mv: Move, s': State, m: string)
    requires Inv(s) && Snapshots(s) && Next(s, ttl, mv, s') && Later(s, s') && m in s'.items
    ensures EntryOk(s', m, s'.items[m])
  {
    if m in s.items && s'.items[m] == s.items[m] {
      FoundStays(s, s', m, Some(s.items[m]));
    } else {
      NewItemsArePut(s, ttl, mv, s', m);
      assert CarriedOk(s, s.flights[mv.f]);
      FoundStays(s, s', m, Some(s'.items[m]));
    }
  }

  lemma FlightsStaySnapshots(s: State, ttl: Time, mv: Move, s': State, f: nat)
    requires Inv(s) && Snapshots(s) && Next(s, ttl, mv, s') && Later(s, s') && f in s'.flights
    ensures CarriedOk(s', s'.flights[f])
  {
    if f in s.flights && s'.flights[f] == s.flights[f] {
      CarriedStays(s, s', s.flights[f]);
    } else if NextFlight(s, ttl, mv, s') {
      FlightCarries(s, ttl, mv, s');
    } else {
      NewFlightsStart(s, ttl, mv, s', f);
    }
  }

  lemma NewFlightsStart(s: State, ttl: Time, mv: Move, s': State, f: nat)
    requires Next(s, ttl, mv, s') && !NextFlight(s, ttl, mv, s')
    requires f in s'.flights && !(f in s.flights && s'.flights[f] == s.flights[f])
    ensures s'.flights[f].pc.Starting? && s'.flights[f].began == Version(s', s'.flights[f].m)
  {
  }

  /** Only a peek starts a reader with an entry in hand. */
  lemma NewFindsArePeeked(s: State, ttl: Time, mv: Move, s': State, r: nat)
    requires Next(s, ttl, mv, s') && r in s'.readers && s'.readers[r].pc.Peeked?
    requires !(r in s.readers && s'.readers[r] == s.readers[r])
    ensures mv.Peek? && s'.readers[r] == Reader(mv.m, Peeked(Cached(s, mv.m)))
  {
  }

  lemma ReadersStaySnapshots(s: State, ttl: Time, mv: Move, s': State, r: nat)
    requires Inv(s) && Snapshots(s) && Next(s, ttl, mv, s') && Later(s, s')
    requires r in s'.readers && s'.readers[r].pc.Peeked?
    ensures FoundOk(s', s'.readers[r].m, s'.readers[r].pc.found)
  {
    if r in s.readers && s'.readers[r] == s.readers[r] {
      FoundStays(s, s', s.readers[r].m, s.readers[r].pc.found);
    } else {
      NewFindsArePeeked(s, ttl, mv, s', r);
      FoundStays(s, s', mv.m, Cached(s, mv.m));
    }
  }

  lemma StepKeepsSnapshots(s: State, ttl: Time, mv: Move, s': State)
    requires Inv(s) && Snapshots(s) && Next(s, ttl, mv, s')
    ensures Snapshots(s')
  {
    StepIsLater(s, ttl, mv, s');
    forall m | m in s'.items ensures EntryOk(s', m, s'.items[m]) {
      ItemsStaySnapshots(s, ttl, mv, s', m);
    }
    forall f | f in s'.flights ensures CarriedOk(s', s'.flights[f]) {
      FlightsStaySnapshots(s, ttl, mv, s', f);
    }
    forall r | r in s'.readers && s'.readers[r].pc.Peeked? ensures FoundOk(s', s'.readers[r].m, s'.readers[r].pc.found) {
      ReadersStaySnapshots(s, ttl, mv, s', r);
    }
  }

  lemma {:induction false} RunKeepsSnapshots(ss: seq<State>, ttl: Time, mvs: seq<Move>, k: nat)
    requires IsRun(ss, ttl, mvs) && k < |ss|
    ensures Snapshots(ss[k])
  {
    if k > 0 {
      RunKeepsSnapshots(ss, ttl, mvs, k - 1);
      RunKeepsInv(ss, ttl, mvs, k - 1);
      StepKeepsSnapshots(ss[k - 1], ttl, mvs[k - 1], ss[k]);
    }
  }

  predicate LoaderRuns(x: Flight) {
    x.pc.Loading? || x.pc.Snapped?
  }

  /** At any point of any run, at most one loader of a match is running. */
  lemma OneLoaderPerMatch(ss: seq<State>, ttl: Time, mvs: seq<Move>, k: nat, f: nat, g: nat)
    requires IsRun(ss, ttl, mvs) && k < |ss| && f in ss[k].flights && g in ss[k].flights
    requires LoaderRuns(ss[k].flights[f]) && LoaderRuns(ss[k].flights[g]) && ss[k].flights[f].m == ss[k].flights[g].m
    ensures f == g
  {
    RunKeepsInv(ss, ttl, mvs, k);
    assert FlightOk(ss[k], f) && FlightOk(ss[k], g);
  }

  // ---------------------------------------------------------------- work bound

  /** Flight `x` has not got past the re-check, or passed it when the entry stamped `since` was over. */
  predicate HeldBack(x: Flight, clock: Time, since: Time, ttl: Time) {
    match x.pc
    case Rechecked(found) => found.Some? && since <= found.value.stamp
    case Loading => since + ttl < clock
    case Snapped(_) => since + ttl < clock
    case Stamped(e) => since + ttl < e.stamp
    case _ => true
  }

  /** Since flight `f` put an entry stamped `since` and nobody invalidated the match. */
  ghost predicate SincePut(s: State, ttl: Time, m: string, f: nat, since: Time) {
    && m in s.items && since <= s.items[m].stamp
    && f in s.flights && (s.flights[f].pc.Returned? || s.flights[f].pc.Finished?)
    && (forall g :: g in s.flights && s.flights[g].m == m && g != f ==> HeldBack(s.flights[g], s.clock, since, ttl))
  }

  lemma PutStarts(s: State, ttl: Time, f: nat, s': State)
    requires Inv(s) && NextFlight(s, ttl, Put(f), s')
    ensures SincePut(s', ttl, s.flights[f].m, f, s.flights[f].pc.entry.stamp)
  {
    var m := s.flights[f].m;
    assert FlightOk(s, f);
    forall g | g in s'.flights && s'.flights[g].m == m && g != f
      ensures HeldBack(s'.flights[g], s'.clock, s.flights[f].pc.entry.stamp, ttl)
    {
      assert FlightOk(s, g);
    }
  }

  lemma FlightKeepsSincePut(s: State, ttl: Time, mv: Move, s': State, m: string, f: nat, since: Time)
    requires Inv(s) && NextFlight(s, ttl, mv, s') && SincePut(s, ttl, m, f, since) && ttl >= 0
    ensures SincePut(s', ttl, m, f, since)
  {
    if s.flights[mv.f].m == m && mv.f != f {
      assert HeldBack(s.flights[mv.f], s.clock, since, ttl);
    }
  }

  lemma ReaderKeepsSincePut(s: State, ttl: Time, mv: Move, s': State, m: string, f: nat, since: Time)
    requires Inv(s) && NextReader(s, ttl, mv, s') && SincePut(s, ttl, m, f, since)
    ensures SincePut(s', ttl, m, f, since)
  {
    assert FlightOk(s, f);
  }

  lemma SincePutHolds(s: State, ttl: Time, mv: Move, s': State, m: string, f: nat, since: Time)
    requires Inv(s) && Next(s, ttl, mv, s') && SincePut(s, ttl, m, f, since) && mv != Invalidate(m) && ttl >= 0
    ensures SincePut(s', ttl, m, f, since)
  {
    if NextReader(s, ttl, mv, s') {
      ReaderKeepsSincePut(s, ttl, mv, s', m, f, since);
    } else if NextFlight(s, ttl, mv, s') {
      FlightKeepsSincePut(s, ttl, mv, s', m, f, since);
    }
  }

  lemma {:induction false} SincePutOver(ss: seq<State>, ttl: Time, mvs: seq<Move>, i: nat, j: nat, f: nat, m: string)
    requires IsRun(ss, ttl, mvs) && i < j <= |mvs| && ttl >= 0
    requires mvs[i] == Put(f) && FlightAt(ss[i], f) && ss[i].flights[f].pc.Stamped? && ss[i].flights[f].m == m
    requires forall n :: i < n < j ==> mvs[n] != Invalidate(m)
    ensures SincePut(ss[j], ttl, m, f, ss[i].flights[f].pc.entry.stamp)
    decreases j
  {
    if i + 1 == j {
      RunKeepsInv(ss, ttl, mvs, i);
      assert Next(ss[i], ttl, mvs[i], ss[j]);
      PutStarts(ss[i], ttl, f, ss[j]);
    } else {
      SincePutOver(ss, ttl, mvs, i, j - 1, f, m);
      RunKeepsInv(ss, ttl, mvs, j - 1);
      SincePutHolds(ss[j - 1], ttl, mvs[j - 1], ss[j], m, f, ss[i].flights[f].pc.entry.stamp);
    }
  }

  /** Between two successful loads of a match, either somebody invalidated it or more than one TTL
      passed from the first entry's stamp to the second's. */
  lemma LoadsAreATtlApart(ss: seq<State>, ttl: Time, mvs: seq<Move>, i: nat, j: nat, f: nat, g: nat)
    requires IsRun(ss, ttl, mvs) && i < j < |mvs| && ttl >= 0 && mvs[i] == Put(f) && mvs[j] == Put(g)
    ensures FlightAt(ss[i], f) && ss[i].flights[f].pc.Stamped? && FlightAt(ss[j], g) && ss[j].flights[g].pc.Stamped?
    ensures ss[i].flights[f].m == ss[j].flights[g].m && (forall n :: i < n < j ==> mvs[n] != Invalidate(ss[i].flights[f].m)) ==>
              ss[j].flights[g].pc.entry.stamp > ss[i].flights[f].pc.entry.stamp + ttl
  {
    assert Next(ss[i], ttl, mvs[i], ss[i + 1]) && Next(ss[j], ttl, mvs[j], ss[j + 1]);
    var m := ss[i].flights[f].m;
    if ss[j].flights[g].m == m && forall n :: i < n < j ==> mvs[n] != Invalidate(m) {
      SincePutOver(ss, ttl, mvs, i, j, f, m);
      assert HeldBack(ss[j].flights[g], ss[j].clock, ss[i].flights[f].pc.entry.stamp, ttl);
    }
  }

  // ---------------------------------------------------------------- freshness

  /** Move `mv` answers reader `r` with entry `e`. */
  ghost predicate Answers(s: State, ttl: Time, mv: Move, r: nat, e: Entry) {
    || (mv == Judge(r) && r in s.readers && s.readers[r].pc.Peeked? && Fresh(s.readers[r].pc.found, s.clock, ttl)
        && s.readers[r].pc.found == Some(e))
    || (mv == Deliver(r) && r in s.readers && s.readers[r].pc.Waiting? && FlightAt(s, s.readers[r].pc.flight)
        && s.flights[s.readers[r].pc.flight].pc == Finished(Loaded(e)))
  }

  /** Flight `f` still has a snapshot from before commit `v` to hand out: loaded, or found fresh. */
  predicate CarriesOlder(s: State, ttl: Time, f: nat, v: nat) {
    f in s.flights &&
    match s.flights[f].pc
    case Rechecked(found) => Fresh(found, s.clock, ttl) && found.value.version < v
    case Snapped(u) => u < v
    case Stamped(e) => e.version < v
    case Returned(out) => out.Loaded? && out.entry.version < v
    case _ => false
  }

  /** The flights of the match that do. */
  ghost function Carriers(s: State, ttl: Time, m: string, v: nat): set<nat> {
    set f | f in s.flights && s.flights[f].m == m && CarriesOlder(s, ttl, f, v)
  }

  /** The flights of the match that are over. */
  ghost function Past(s: State, m: string): set<nat> {
    set f | f in s.flights && s.flights[f].m == m && s.flights[f].pc.Finished?
  }

  /** The entry reflects at least `v` commits, or was loaded by one of the flights `aloft`. */
  predicate Good(e: Entry, v: nat, aloft: set<nat>) {
    v <= e.version || e.flight in aloft
  }

  predicate GoodFound(found: Option<Entry>, v: nat, aloft: set<nat>) {
    found.Some? ==> Good(found.value, v, aloft)
  }

  predicate GoodFlight(x: Flight, v: nat, aloft: set<nat>, clock: Time, ttl: Time) {
    match x.pc
    case Rechecked(found) => GoodFound(found, v, aloft) || !Fresh(found, clock, ttl)
    case Snapped(u) => v <= u
    case Stamped(e) => Good(e, v, aloft)
    case Returned(out) => out.Loaded? ==> Good(out.entry, v, aloft)
    case Finished(out) => out.Loaded? ==> Good(out.entry, v, aloft)
    case _ => true
  }

  ghost predicate FlightsSince(s: State, ttl: Time, m: string, v: nat, aloft: set<nat>, past: set<nat>) {
    && (forall f :: f in aloft ==> f in s.flights && s.flights[f].m == m)
    && (forall f :: f in past ==> f in s.flights && s.flights[f].pc.Finished?)
    && (forall f :: f in s.flights && s.flights[f].m == m && f !in aloft && f !in past ==>
          GoodFlight(s.flights[f], v, aloft, s.clock, ttl))
  }

  predicate GoodReader(x: Reader, v: nat, aloft: set<nat>, past: set<nat>) {
    match x.pc
    case Peeked(found) => GoodFound(found, v, aloft)
    case Missed => true
    case Waiting(f) => f !in past
  }

  /** Since an invalidate after commit `v` that found the flights `aloft` carrying something older and
      the flights `past` over, when `first` was the next reader: everything newer shows `v` or comes
      from `aloft`. */
  ghost predicate SinceInvalidate(s: State, ttl: Time, m: string, v: nat, aloft: set<nat>, past: set<nat>, first: nat) {
    && v <= Version(s, m)
    && GoodFound(Cached(s, m), v, aloft)
    && FlightsSince(s, ttl, m, v, aloft, past)
    && first <= s.nextReader
    && (forall r :: r in s.readers && first <= r && s.readers[r].m == m ==> GoodReader(s.readers[r], v, aloft, past))
  }

  lemma InvalidateStarts(s: State, ttl: Time, m: string, s': State, v: nat)
    requires Inv(s) && Next(s, ttl, Invalidate(m), s') && v <= Version(s, m)
    ensures SinceInvalidate(s', ttl, m, v, Carriers(s, ttl, m, v), Past(s, m), s.nextReader)
  {
  }

  lemma ReaderKeepsSince(s: State, ttl: Time, mv: Move, s': State, m: string, v: nat, aloft: set<nat>, past: set<nat>, first: nat)
    requires Inv(s) && NextReader(s, ttl, mv, s') && SinceInvalidate(s, ttl, m, v, aloft, past, first)
    ensures SinceInvalidate(s', ttl, m, v, aloft, past, first)
  {
    if mv.Join? {
      JoinKeepsSince(s, ttl, mv.r, s', m, v, aloft, past, first);
    } else {
      forall r | r in s'.readers && first <= r && s'.readers[r].m == m ensures GoodReader(s'.readers[r], v, aloft, past) {
        if r in s.readers {
          assert GoodReader(s.readers[r], v, aloft, past);
        }
      }
    }
  }

  lemma JoinKeepsSince(s: State, ttl: Time, r: nat, s': State, m: string, v: nat, aloft: set<nat>, past: set<nat>, first: nat)
    requires Inv(s) && NextReader(s, ttl, Join(r), s') && SinceInvalidate(s, ttl, m, v, aloft, past, first)
    ensures SinceInvalidate(s', ttl, m, v, aloft, past, first)
  {
    assert s.nextFlight in s.flights ==> FlightOk(s, s.nextFlight);
    if s.readers[r].m in s.group {
      assert s.group[s.readers[r].m] !in past;
    }
  }

  /** What a flight stores is its own load: it shows `v` unless the flight was aloft. */
  lemma FlightKeepsCacheGood(s: State, ttl: Time, mv: Move, s': State, m: string, v: nat, aloft: set<nat>, past: set<nat>)
    requires NextFlight(s, ttl, mv, s') && GoodFound(Cached(s, m), v, aloft) && FlightsSince(s, ttl, m, v, aloft, past)
    requires FlightOk(s, mv.f)
    ensures GoodFound(Cached(s', m), v, aloft)
  {
    if s.flights[mv.f].m == m && mv.f !in aloft && mv.f !in past {
      assert GoodFlight(s.flights[mv.f], v, aloft, s.clock, ttl);
    }
  }

  lemma FlightKeepsFlightsSince(s: State, ttl: Time, mv: Move, s': State, m: string, v: nat, aloft: set<nat>, past: set<nat>)
    requires NextFlight(s, ttl, mv, s') && GoodFound(Cached(s, m), v, aloft) && FlightsSince(s, ttl, m, v, aloft, past)
    requires v <= Version(s, m)
    ensures FlightsSince(s', ttl, m, v, aloft, past)
  {
    var f := mv.f;
    assert forall g :: g in s.flights && g != f ==> s'.flights[g] == s.flights[g];
    assert f !in past;
    if s.flights[f].m == m && f !in aloft {
      assert GoodFlight(s.flights[f], v, aloft, s.clock, ttl);
      assert GoodFlight(s'.flights[f], v, aloft, s'.clock, ttl);
    }
  }

  lemma FlightKeepsSince(s: State, ttl: Time, mv: Move, s': State, m: string, v: nat, aloft: set<nat>, past: set<nat>, first: nat)
    requires Inv(s) && NextFlight(s, ttl, mv, s') && SinceInvalidate(s, ttl, m, v, aloft, past, first)
    ensures SinceInvalidate(s', ttl, m, v, aloft, past, first)
  {
    assert FlightOk(s, mv.f);
    FlightKeepsCacheGood(s, ttl, mv, s', m, v, aloft, past);
    FlightKeepsFlightsSince(s, ttl, mv, s', m, v, aloft, past);
  }

  lemma StepKeepsSince(s: State, ttl: Time, mv: Move, s': State, m: string, v: nat, aloft: set<nat>, past: set<nat>, first: nat)
    requires Inv(s) && Next(s, ttl, mv, s') && SinceInvalidate(s, ttl, m, v, aloft, past, first)
    ensures SinceInvalidate(s', ttl, m, v, aloft, past, first)
  {
    if NextReader(s, ttl, mv, s') {
      ReaderKeepsSince(s, ttl, mv, s', m, v, aloft, past, first);
    } else if NextFlight(s, ttl, mv, s') {
      FlightKeepsSince(s, ttl, mv, s', m, v, aloft, past, first);
    }
  }

  lemma SinceInvalidateNext(ss: seq<State>, ttl: Time, mvs: seq<Move>, k: nat,
                            m: string, v: nat, aloft: set<nat>, past: set<nat>, first: nat)
    requires IsRun(ss, ttl, mvs) && k < |mvs| && SinceInvalidate(ss[k], ttl, m, v, aloft, past, first)
    ensures SinceInvalidate(ss[k + 1], ttl, m, v, aloft, past, first)
  {
    RunKeepsInv(ss, ttl, mvs, k);
    StepKeepsSince(ss[k], ttl, mvs[k], ss[k + 1], m, v, aloft, past, first);
  }

  lemma {:induction false} SinceInvalidateOn(ss: seq<State>, ttl: Time, mvs: seq<Move>, i: nat, j: nat,
                                              m: string, v: nat, aloft: set<nat>, past: set<nat>, first: nat)
    requires IsRun(ss, ttl, mvs) && i <= j < |ss| && SinceInvalidate(ss[i], ttl, m, v, aloft, past, first)
    ensures SinceInvalidate(ss[j], ttl, m, v, aloft, past, first)
    decreases j - i
  {
    if i < j {
      SinceInvalidateNext(ss, ttl, mvs, i, m, v, aloft, past, first);
      SinceInvalidateOn(ss, ttl, mvs, i + 1, j, m, v, aloft, past, first);
    }
  }

  lemma SinceInvalidateOver(ss: seq<State>, ttl: Time, mvs: seq<Move>, i: nat, j: nat, m: string, v: nat)
    requires IsRun(ss, ttl, mvs) && i < j < |ss| && mvs[i] == Invalidate(m) && v <= Version(ss[i], m)
    ensures SinceInvalidate(ss[j], ttl, m, v, Carriers(ss[i], ttl, m, v), Past(ss[i], m), ss[i].nextReader)
  {
    RunKeepsInv(ss, ttl, mvs, i);
    assert Next(ss[i], ttl, mvs[i], ss[i + 1]);
    InvalidateStarts(ss[i], ttl, m, ss[i + 1], v);
    SinceInvalidateOn(ss, ttl, mvs, i + 1, j, m, v, Carriers(ss[i], ttl, m, v), Past(ss[i], m), ss[i].nextReader);
  }

  /** Every answer is a snapshot taken after its flight began, no later than now; a cache hit at time t
      was stamped no earlier than t - TTL. */
  lemma AnswersAreRecentSnapshots(ss: seq<State>, ttl: Time, mvs: seq<Move>, k: nat, r: nat, e: Entry)
    requires IsRun(ss, ttl, mvs) && k < |mvs| && Answers(ss[k], ttl, mvs[k], r, e)
    ensures EntryOk(ss[k], ss[k].readers[r].m, e)
    ensures mvs[k].Judge? ==> ss[k].clock - ttl <= e.stamp <= ss[k].clock
  {
    RunKeepsInv(ss, ttl, mvs, k);
    RunKeepsSnapshots(ss, ttl, mvs, k);
    if mvs[k].Deliver? {
      assert CarriedOk(ss[k], ss[k].flights[ss[k].readers[r].pc.flight]);
    }
  }

  /** A load that starts after the invalidate of a write sees the write, unless a flight that carried an
      older snapshot at the invalidate loaded what it sees or is the flight it waited for. A cached
      leftover of such a flight is served at most one TTL past its stamp. */
  lemma LoadsSeeTheWrite(ss: seq<State>, ttl: Time, mvs: seq<Move>, i: nat, j: nat, m: string, v: nat, r: nat, e: Entry)
    requires IsRun(ss, ttl, mvs) && i < j < |mvs| && mvs[i] == Invalidate(m) && v <= Version(ss[i], m)
    requires r in ss[j].readers && ss[j].readers[r].m == m && ss[i].nextReader <= r && Answers(ss[j], ttl, mvs[j], r, e)
    ensures var aloft := Carriers(ss[i], ttl, m, v);
            || v <= e.version
            || (mvs[j].Judge? && e.flight in aloft && ss[j].clock <= e.stamp + ttl)
            || (mvs[j].Deliver? && ss[j].readers[r].pc.Waiting? && (e.flight in aloft || ss[j].readers[r].pc.flight in aloft))
  {
    var aloft, past := Carriers(ss[i], ttl, m, v), Past(ss[i], m);
    SinceInvalidateOver(ss, ttl, mvs, i, j, m, v);
    RunKeepsInv(ss, ttl, mvs, j);
    assert GoodReader(ss[j].readers[r], v, aloft, past);
    if mvs[j].Deliver? && ss[j].readers[r].pc.flight !in aloft {
      assert GoodFlight(ss[j].flights[ss[j].readers[r].pc.flight], v, aloft, ss[j].clock, ttl);
    }
  }

  /** At move `j` a reader that came after the invalidate at move `i` is answered from before commit `v`. */
  ghost predicate ServesOlder(ss: seq<State>, ttl: Time, mvs: seq<Move>, i: nat, m: string, v: nat, j: nat, r: nat, e: Entry) {
    && |ss| == |mvs| + 1 && i < j < |mvs|
    && r in ss[j].readers && ss[j].readers[r].m == m && ss[i].nextReader <= r
    && Answers(ss[j], ttl, mvs[j], r, e) && e.version < v
  }

  /** With no flight carrying an older snapshot at the invalidate, every later load sees the write. */
  lemma ReadYourWrites(ss: seq<State>, ttl: Time, mvs: seq<Move>, i: nat, j: nat, m: string, v: nat, r: nat, e: Entry)
    requires IsRun(ss, ttl, mvs) && i < j < |mvs| && mvs[i] == Invalidate(m) && v <= Version(ss[i], m)
    requires Carriers(ss[i], ttl, m, v) == {}
    ensures !ServesOlder(ss, ttl, mvs, i, m, v, j, r, e)
  {
    if ServesOlder(ss, ttl, mvs, i, m, v, j, r, e) {
      LoadsSeeTheWrite(ss, ttl, mvs, i, j, m, v, r, e);
    }
  }
}
