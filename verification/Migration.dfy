/**
 Migration 0008: normalise the bookings table so that the index "one held row per (match, buyer)"
 can be created.
 */
module Migration {
  import opened Options
  import opened Tables
  import A = Atomic

  // ---------------------------------------------------------------- the two UPDATEs

  /** Lines 7-9: holds at or past their TTL become expired (`<=`, unlike the hold path's `<`). */
  function ExpireAll(bs: map<Id, Booking>, now: Time): map<Id, Booking> {
    map i | i in bs ::
      if bs[i].status == Held && bs[i].holdExpiresAt.Some? && bs[i].holdExpiresAt.value <= now
      then ExpiredRow(bs[i]) else bs[i]
  }

  /** Row `j` comes before row `i` in `ORDER BY created_at DESC, id DESC`. */
  predicate Newer(bs: map<Id, Booking>, j: Id, i: Id)
    requires i in bs && j in bs
  {
    bs[j].createdAt > bs[i].createdAt || (bs[j].createdAt == bs[i].createdAt && j > i)
  }

  function HoldsOf(bs: map<Id, Booking>, m: string, b: string): set<Id> {
    set i | i in bs && HeldBy(bs[i], m, b)
  }

  /** row_number() within the partition of (match_id, buyer_id). */
  function Position(bs: map<Id, Booking>, i: Id): nat
    requires i in bs
  {
    1 + |set j | j in HoldsOf(bs, bs[i].matchId, bs[i].buyerId) && Newer(bs, j, i)|
  }

  /** Lines 13-25: every held row but the first of its partition is cancelled. */
  function CancelDuplicates(bs: map<Id, Booking>, now: Time): map<Id, Booking> {
    map i | i in bs :: if bs[i].status == Held && Position(bs, i) > 1 then CancelledRow(bs[i], now) else bs[i]
  }

  // ---------------------------------------------------------------- what it achieves

  predicate Unexpired(r: Booking, now: Time) {
    r.status == Held && BeforeTtl(r, now)
  }

  /** Row `i` is the newest unexpired hold of its buyer in its match. */
  ghost predicate NewestHold(bs: map<Id, Booking>, i: Id, now: Time)
    requires i in bs
  {
    && Unexpired(bs[i], now)
    && forall j :: j in bs && Unexpired(bs[j], now) && HeldBy(bs[j], bs[i].matchId, bs[i].buyerId) && j != i ==>
         bs[j].createdAt < bs[i].createdAt || (bs[j].createdAt == bs[i].createdAt && j < i)
  }

  /** What becomes of row `i`: the newest unexpired holds stay, other holds are expired or cancelled,
      and every other row is untouched. */
  ghost predicate Normalised(bs: map<Id, Booking>, i: Id, r: Booking, now: Time)
    requires i in bs
  {
    if bs[i].status != Held then r == bs[i]
    else if !Unexpired(bs[i], now) then r == ExpiredRow(bs[i])
    else if NewestHold(bs, i, now) then r == bs[i]
    else r == CancelledRow(bs[i], now)
  }

  /** The table's CHECK (0001_schema.sql:28): a held row has an expiry. */
  predicate Checked(r: Booking) {
    r.status == Held ==> r.holdExpiresAt.Some?
  }

  ghost predicate AllChecked(bs: map<Id, Booking>) {
    forall i :: i in bs ==> Checked(bs[i])
  }

  lemma FirstIffNoNewer(bs: map<Id, Booking>, i: Id)
    requires i in bs
    ensures Position(bs, i) > 1 <==>
            exists j :: j in bs && HeldBy(bs[j], bs[i].matchId, bs[i].buyerId) && Newer(bs, j, i)
  {
    var ahead := set j | j in HoldsOf(bs, bs[i].matchId, bs[i].buyerId) && Newer(bs, j, i);
    if j :| j in bs && HeldBy(bs[j], bs[i].matchId, bs[i].buyerId) && Newer(bs, j, i) {
      assert j in ahead;
    }
    if ahead != {} {
      var j :| j in ahead;
      assert j in bs && HeldBy(bs[j], bs[i].matchId, bs[i].buyerId) && Newer(bs, j, i);
    }
  }

  lemma ExpiredFirst(bs: map<Id, Booking>, i: Id, now: Time)
    requires i in bs && Checked(bs[i])
    ensures var es := ExpireAll(bs, now);
            (es[i].status == Held <==> Unexpired(bs[i], now)) && (es[i].status == Held ==> es[i] == bs[i])
  {
  }

  lemma RowIsNormalised(bs: map<Id, Booking>, i: Id, now: Time)
    requires AllChecked(bs) && i in bs
    ensures Normalised(bs, i, CancelDuplicates(ExpireAll(bs, now), now)[i], now)
  {
    var es := ExpireAll(bs, now);
    ExpiredFirst(bs, i, now);
    FirstIffNoNewer(es, i);
    if Unexpired(bs[i], now) {
      forall j | j in bs
        ensures es[j].createdAt == bs[j].createdAt
        ensures HeldBy(es[j], bs[i].matchId, bs[i].buyerId) <==>
                Unexpired(bs[j], now) && HeldBy(bs[j], bs[i].matchId, bs[i].buyerId)
      {
        ExpiredFirst(bs, j, now);
      }
      if j :| j in es && HeldBy(es[j], es[i].matchId, es[i].buyerId) && Newer(es, j, i) {
        assert !Newer(bs, i, j);
      }
    }
  }

  lemma MigrationRewrites(bs: map<Id, Booking>, now: Time)
    requires AllChecked(bs)
    ensures A.Rewrites(bs, CancelDuplicates(ExpireAll(bs, now), now), now)
  {
    forall i | i in bs ensures A.Rewritten(bs[i], CancelDuplicates(ExpireAll(bs, now), now)[i], now) {
      RowIsNormalised(bs, i, now);
    }
  }

  lemma MigrationMakesBuyerUnique(bs: map<Id, Booking>, cs: map<Id, Booking>, now: Time)
    requires cs.Keys == bs.Keys && forall i :: i in bs ==> Normalised(bs, i, cs[i], now)
    ensures BuyerUnique(cs)
  {
    forall i, j | i in cs && j in cs && cs[i].status == Held && HeldBy(cs[j], cs[i].matchId, cs[i].buyerId)
      ensures i == j
    {
      assert Normalised(bs, i, cs[i], now) && Normalised(bs, j, cs[j], now);
      assert NewestHold(bs, i, now) && NewestHold(bs, j, now);
    }
  }

  lemma {:induction false} NewestExists(bs: map<Id, Booking>, ids: set<Id>) returns (n: Id)
    requires ids != {} && forall i :: i in ids ==> i in bs
    ensures n in ids && forall j :: j in ids && j != n ==> Newer(bs, n, j)
    decreases ids
  {
    var p :| p in ids;
    var rest := ids - {p};
    n := p;
    assert forall j :: j in ids && j != p ==> j in rest;
    if rest != {} {
      var q := NewestExists(bs, rest);
      if Newer(bs, q, p) {
        n := q;
      } else {
        assert Newer(bs, p, q);
        forall j | j in ids && j != p ensures Newer(bs, p, j) {
          assert j == q || Newer(bs, q, j);
        }
      }
    }
  }

  lemma NewestIsKept(bs: map<Id, Booking>, mine: set<Id>, n: Id, now: Time)
    requires n in bs && n in mine
    requires mine == set j | j in bs && Unexpired(bs[j], now) && HeldBy(bs[j], bs[n].matchId, bs[n].buyerId)
    requires forall j :: j in mine && j != n ==> Newer(bs, n, j)
    ensures NewestHold(bs, n, now)
  {
    forall j | j in bs && Unexpired(bs[j], now) && HeldBy(bs[j], bs[n].matchId, bs[n].buyerId) && j != n
      ensures bs[j].createdAt < bs[n].createdAt || (bs[j].createdAt == bs[n].createdAt && j < n)
    {
      assert j in mine && Newer(bs, n, j);
    }
  }

  /** Whoever had an unexpired hold in a match still has one, and by uniqueness just one. */
  lemma SomeHoldSurvives(bs: map<Id, Booking>, cs: map<Id, Booking>, now: Time, i: Id)
    requires cs.Keys == bs.Keys && (forall j :: j in bs ==> Normalised(bs, j, cs[j], now))
    requires i in bs && Unexpired(bs[i], now)
    ensures exists n :: n in bs && HeldBy(bs[n], bs[i].matchId, bs[i].buyerId) && NewestHold(bs, n, now) && cs[n] == bs[n]
  {
    var mine := set j | j in bs && Unexpired(bs[j], now) && HeldBy(bs[j], bs[i].matchId, bs[i].buyerId);
    assert i in mine && forall j :: j in mine ==> j in bs;
    var n := NewestExists(bs, mine);
    NewestIsKept(bs, mine, n, now);
    assert Normalised(bs, n, cs[n], now);
  }

  /** The migration: from any table with one active row per seat to one that also has one hold per
      (match, buyer). */
  method Migrate(bs: map<Id, Booking>, now: Time) returns (cs: map<Id, Booking>)
    requires AllChecked(bs) && SeatUnique(bs)
    ensures cs.Keys == bs.Keys && forall i :: i in bs ==> Normalised(bs, i, cs[i], now)
    ensures SeatUnique(cs) && BuyerUnique(cs) && AllChecked(cs) && (A.Shaped(bs) ==> A.Shaped(cs))
  {
    cs := ExpireAll(bs, now);
    cs := CancelDuplicates(cs, now);
    forall i | i in bs ensures Normalised(bs, i, cs[i], now) {
      RowIsNormalised(bs, i, now);
    }
    MigrationRewrites(bs, now);
    A.RewritesKeepSeatUnique(bs, cs, now);
    if A.Shaped(bs) {
      A.RewriteKeepsShaped(bs, cs, now);
    }
    MigrationMakesBuyerUnique(bs, cs, now);
  }
}
