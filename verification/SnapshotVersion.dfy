/**
 The length-prefixed stream that seatSnapshotVersion hashes (seatcache.go:71-91). Go strings are
 sequences of bytes. A hold expiry is represented by its formatted UTC text, which is never
 empty.
 */
module SnapshotVersion {
  import opened Options

  newtype byte = x: int | 0 <= x < 256

  type Text = seq<byte>

  datatype Seat = Seat(seatId: Text, section: Text, status: Text, holdExpiresAt: Option<Text>)

  const ZERO: byte := 48
  const COLON: byte := 58

  // ---------------------------------------------------------------- printing

  function Itoa(n: nat): Text {
    if n < 10 then [ZERO + n as byte] else Itoa(n / 10) + [ZERO + (n % 10) as byte]
  }

  /** writeVersionString: the length in decimal, a colon, the bytes. */
  function Frame(v: Text): Text {
    Itoa(|v|) + [COLON] + v
  }

  function Expiry(seat: Seat): Text {
    if seat.holdExpiresAt.None? then [] else seat.holdExpiresAt.value
  }

  function SeatFrames(seat: Seat): Text {
    Frame(seat.seatId) + (Frame(seat.section) + (Frame(seat.status) + Frame(Expiry(seat))))
  }

  function SeatStream(seats: seq<Seat>): Text {
    if seats == [] then [] else SeatFrames(seats[0]) + SeatStream(seats[1..])
  }

  /** Everything that is fed to the hash for one match and its seats. */
  function Stream(matchId: Text, seats: seq<Seat>): Text {
    Frame(matchId) + SeatStream(seats)
  }

  lemma {:induction false} SeatStreamAppends(seats: seq<Seat>, seat: Seat)
    ensures SeatStream(seats + [seat]) == SeatStream(seats) + SeatFrames(seat)
  {
    if seats == [] {
      assert seats + [seat] == [seat] + [];
      SeatStreamOf(seat, []);
    } else {
      SeatStreamAppends(seats[1..], seat);
      assert seats + [seat] == [seats[0]] + (seats[1..] + [seat]);
      SeatStreamOf(seats[0], seats[1..] + [seat]);
      Associate(SeatFrames(seats[0]), SeatStream(seats[1..]), SeatFrames(seat));
    }
  }

  lemma SeatStreamOf(seat: Seat, rest: seq<Seat>)
    ensures SeatStream([seat] + rest) == SeatFrames(seat) + SeatStream(rest)
  {
    assert ([seat] + rest)[1..] == rest;
  }

  lemma Associate(a: Text, b: Text, c: Text)
    ensures (a + b) + c == a + (b + c)
  {
  }

  lemma StreamAppends(matchId: Text, seats: seq<Seat>, i: nat)
    requires i < |seats|
    ensures Stream(matchId, seats[..i + 1]) == Stream(matchId, seats[..i]) + SeatFrames(seats[i])
  {
    SeatStreamAppends(seats[..i], seats[i]);
    assert seats[..i] + [seats[i]] == seats[..i + 1];
  }

  /** The body of the loop of seatSnapshotVersion, writing to `h` what the source writes to its hash. */
  method WriteSeat(h: Text, seat: Seat) returns (h': Text)
    ensures h' == h + SeatFrames(seat)
  {
    var id, section, status := Frame(seat.seatId), Frame(seat.section), Frame(seat.status);
    h' := h + id;
    h' := h' + section;
    h' := h' + status;
    var expiry := Frame([]);
    if seat.holdExpiresAt.Some? {
      expiry := Frame(seat.holdExpiresAt.value);
    }
    h' := h' + expiry;
    Regroup(h, id, section, status, expiry);
  }

  lemma Regroup(h: Text, a: Text, b: Text, c: Text, d: Text)
    ensures h + a + b + c + d == h + (a + (b + (c + d)))
  {
  }

  /** seatSnapshotVersion up to the final digest. */
  method WriteVersion(matchId: Text, seats: seq<Seat>) returns (h: Text)
    ensures h == Stream(matchId, seats)
  {
    h := Frame(matchId);
    var i := 0;
    while i < |seats|
      invariant 0 <= i <= |seats|
      invariant h == Stream(matchId, seats[..i])
    {
      StreamAppends(matchId, seats, i);
      h := WriteSeat(h, seats[i]);
      i := i + 1;
    }
    assert seats[..i] == seats;
  }

  // ---------------------------------------------------------------- parsing

  predicate IsDigit(b: byte) {
    ZERO <= b < ZERO + 10
  }

  function Atoi(ds: Text): nat
    requires forall d :: d in ds ==> IsDigit(d)
  {
    if ds == [] then 0 else
      var last := ds[|ds| - 1];
      assert IsDigit(last) && forall d :: d in ds[..|ds| - 1] ==> d in ds;
      10 * Atoi(ds[..|ds| - 1]) + (last - ZERO) as nat
  }

  /** The leading digits of `t`. */
  function Digits(t: Text): (ds: Text)
    ensures |ds| <= |t| && ds == t[..|ds|] && forall d :: d in ds ==> IsDigit(d)
  {
    if t == [] || !IsDigit(t[0]) then [] else [t[0]] + Digits(t[1..])
  }

  /** Undo one frame: its value and the rest of the stream. */
  function ParseFrame(t: Text): (r: Option<(Text, Text)>)
    ensures r.Some? ==> |r.value.1| < |t|
  {
    var ds := Digits(t);
    if ds == [] || |ds| == |t| || t[|ds|] != COLON then None
    else
      var n, body := Atoi(ds), t[|ds| + 1..];
      if n > |body| then None else Some((body[..n], body[n..]))
  }

  function ParseSeat(t: Text): (r: Option<(Seat, Text)>)
    ensures r.Some? ==> |r.value.1| < |t|
  {
    match ParseFrame(t)
    case None => None
    case Some((id, t1)) =>
      match ParseFrame(t1)
      case None => None
      case Some((section, t2)) =>
        match ParseFrame(t2)
        case None => None
        case Some((status, t3)) =>
          match ParseFrame(t3)
          case None => None
          case Some((expiry, t4)) => Some((Seat(id, section, status, if expiry == [] then None else Some(expiry)), t4))
  }

  function ParseSeats(t: Text): Option<seq<Seat>>
    decreases |t|
  {
    if t == [] then Some([])
    else match ParseSeat(t)
      case None => None
      case Some((seat, rest)) =>
        match ParseSeats(rest)
        case None => None
        case Some(seats) => Some([seat] + seats)
  }

  function Parse(t: Text): Option<(Text, seq<Seat>)> {
    match ParseFrame(t)
    case None => None
    case Some((matchId, rest)) =>
      match ParseSeats(rest)
      case None => None
      case Some(seats) => Some((matchId, seats))
  }

  // ---------------------------------------------------------------- round trip

  lemma {:induction false} ItoaIsDecimal(n: nat)
    ensures Itoa(n) != [] && (forall d :: d in Itoa(n) ==> IsDigit(d)) && Atoi(Itoa(n)) == n
  {
    if n < 10 {
      assert Itoa(n)[..0] == [];
    } else {
      ItoaIsDecimal(n / 10);
      var ds := Itoa(n);
      assert ds[..|ds| - 1] == Itoa(n / 10);
    }
  }

  lemma {:induction false} DigitsStopAtColon(ds: Text, rest: Text)
    requires forall d :: d in ds ==> IsDigit(d)
    ensures Digits(ds + [COLON] + rest) == ds
  {
    var t := ds + [COLON] + rest;
    if ds != [] {
      assert t[1..] == ds[1..] + [COLON] + rest;
      DigitsStopAtColon(ds[1..], rest);
    }
  }

  lemma FrameRoundTrip(v: Text, rest: Text)
    ensures ParseFrame(Frame(v) + rest) == Some((v, rest))
  {
    var ds := Itoa(|v|);
    ItoaIsDecimal(|v|);
    DigitsStopAtColon(ds, v + rest);
    var t := Frame(v) + rest;
    assert t == ds + [COLON] + (v + rest);
    assert t[|ds| + 1..] == v + rest;
  }

  /** A formatted instant is not empty. */
  predicate Proper(seat: Seat) {
    seat.holdExpiresAt.Some? ==> seat.holdExpiresAt.value != []
  }

  lemma SeatRoundTrip(seat: Seat, rest: Text)
    requires Proper(seat)
    ensures ParseSeat(SeatFrames(seat) + rest) == Some((seat, rest))
  {
    var t3 := Frame(Expiry(seat)) + rest;
    var t2 := Frame(seat.status) + t3;
    var t1 := Frame(seat.section) + t2;
    assert SeatFrames(seat) + rest == Frame(seat.seatId) + t1;
    FrameRoundTrip(seat.seatId, t1);
    FrameRoundTrip(seat.section, t2);
    FrameRoundTrip(seat.status, t3);
    FrameRoundTrip(Expiry(seat), rest);
  }

  lemma ParseSeatsStep(t: Text, seat: Seat, rest: Text, seats: seq<Seat>)
    requires t != [] && ParseSeat(t) == Some((seat, rest)) && ParseSeats(rest) == Some(seats)
    ensures ParseSeats(t) == Some([seat] + seats)
  {
  }

  lemma {:induction false} SeatsRoundTrip(seats: seq<Seat>)
    requires forall seat :: seat in seats ==> Proper(seat)
    ensures ParseSeats(SeatStream(seats)) == Some(seats)
  {
    if seats != [] {
      var rest := SeatStream(seats[1..]);
      SeatRoundTrip(seats[0], rest);
      SeatsRoundTrip(seats[1..]);
      ParseSeatsStep(SeatFrames(seats[0]) + rest, seats[0], rest, seats[1..]);
      assert [seats[0]] + seats[1..] == seats;
    }
  }

  /** Parsing undoes printing. */
  lemma StreamRoundTrip(matchId: Text, seats: seq<Seat>)
    requires forall seat :: seat in seats ==> Proper(seat)
    ensures Parse(Stream(matchId, seats)) == Some((matchId, seats))
  {
    FrameRoundTrip(matchId, SeatStream(seats));
    SeatsRoundTrip(seats);
  }

  /** Different snapshots feed different streams to the hash; with a collision-free hash they have
      different versions. */
  lemma VersionsTellSnapshotsApart(hash: Text -> Text, m: Text, seats: seq<Seat>, m': Text, seats': seq<Seat>)
    requires forall a, b :: hash(a) == hash(b) ==> a == b
    requires forall seat :: seat in seats ==> Proper(seat)
    requires forall seat :: seat in seats' ==> Proper(seat)
    ensures hash(Stream(m, seats)) == hash(Stream(m', seats')) <==> m == m' && seats == seats'
  {
    StreamRoundTrip(m, seats);
    StreamRoundTrip(m', seats');
  }
}
