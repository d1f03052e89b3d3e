/**
 A conditional seat-map read end to end: the ETag handleListSeats sends (httpapi/seats.go:32-39) is
 `W/"seats-<version>"` with the version of module SnapshotVersion.
 */
module ConditionalRead {
  import opened SnapshotVersion
  import E = ETag

  /** A snapshot a client may have been served: a match and its seats. */
  datatype Snapshot = Snapshot(matchId: Text, seats: seq<Seat>)

  ghost predicate ProperSnapshot(n: Snapshot) {
    forall k :: 0 <= k < |n.seats| ==> Proper(n.seats[k])
  }

  /** A digest rendered in hexadecimal: no collisions, and only plain characters. */
  ghost predicate HexDigest(digest: Text -> string) {
    && (forall a, b :: digest(a) == digest(b) ==> a == b)
    && (forall a :: E.Plain(digest(a)) && ',' !in digest(a))
  }

  function Name(digest: Text -> string, n: Snapshot): string {
    "seats-" + digest(Stream(n.matchId, n.seats))
  }

  function CurrentETag(digest: Text -> string, n: Snapshot): string {
    E.Render(E.Tag(true, Name(digest, n)))
  }

  lemma NamesTellSnapshotsApart(digest: Text -> string, n: Snapshot, n': Snapshot)
    requires HexDigest(digest) && ProperSnapshot(n) && ProperSnapshot(n')
    ensures Name(digest, n) == Name(digest, n') <==> n == n'
  {
    StreamRoundTrip(n.matchId, n.seats);
    StreamRoundTrip(n'.matchId, n'.seats);
    assert Name(digest, n)[6..] == digest(Stream(n.matchId, n.seats));
    assert Name(digest, n')[6..] == digest(Stream(n'.matchId, n'.seats));
  }

  lemma NameOfServed(digest: Text -> string, e: E.Element, n: Snapshot, now: Snapshot)
    requires HexDigest(digest) && ProperSnapshot(n) && ProperSnapshot(now) && e.tag.name == Name(digest, n)
    ensures ',' !in e.tag.name && (e.tag.name == Name(digest, now) <==> n == now)
  {
    NamesTellSnapshotsApart(digest, n, now);
  }

  /** A client that lists the tags of the snapshots it has gets 304 iff it has the current one. */
  lemma NotModifiedIffClientHasIt(digest: Text -> string, had: seq<Snapshot>, es: seq<E.Element>, now: Snapshot)
    requires HexDigest(digest) && ProperSnapshot(now) && had != [] && |es| == |had|
    requires forall k :: 0 <= k < |had| ==>
               ProperSnapshot(had[k]) && E.WellFormed(es[k]) && es[k].tag.name == Name(digest, had[k])
    ensures E.Matches(E.Header(es), CurrentETag(digest, now)) <==> now in had
  {
    forall k | 0 <= k < |had| ensures ',' !in es[k].tag.name && (es[k].tag.name == Name(digest, now) <==> had[k] == now) {
      NameOfServed(digest, es[k], had[k], now);
    }
    E.NotModifiedIffNamed(es, Name(digest, now));
  }
}
