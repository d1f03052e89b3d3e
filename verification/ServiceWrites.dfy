/**
 The service's four writes over the store and the seat cache together (internal/booking/hold.go,
 confirm.go, cancel.go): the store's call, under retry but for the release, and after a success the
 invalidate. An attempt that the server aborts leaves the tables as they are, so at most one attempt
 acts; `aborted` says which are, `now(k)` is the timestamp of attempt `k`. The call that withRetry repeats
 is given by the store's specification, and the attempt that is not aborted is then carried out.
 */
module ServiceWrites {
  import opened Options
  import opened Tables
  import opened StoreModel
  import opened ServiceModel
  import Retry
  import SeatCache

  /** Why a write failed: the server aborted its last attempt, or refused it. */
  datatype Failure = Aborted | Refused(a: Answer)

  type Reply = Retry.Result<Answer, Failure>

  predicate Done(a: Answer) {
    a.Placed? || a.ConfirmedAs? || a.ReleasedIn? || a.CancelledAs?
  }

  function Attempt(aborted: bool, a: Answer): Retry.Outcome<Answer, Failure> {
    if aborted then Retry.Retryable(Aborted) else if Done(a) then Retry.Ok(a) else Retry.Fatal(Refused(a))
  }

  /** The booking was added, or its row changed. */
  predicate Touched(bs: map<Id, Booking>, bs': map<Id, Booking>, i: Id) {
    i in bs' && (i !in bs || bs'[i] != bs[i])
  }

  /** At no time does the cache answer for the match. */
  ghost predicate Misses(items: map<string, SeatCache.Entry>, m: string, ttl: Time) {
    forall now :: FreshIn(items, m, now, ttl).None?
  }

  /** Every match of which a booking was added or changed misses. */
  ghost predicate NothingStale(bs: map<Id, Booking>, bs': map<Id, Booking>, items: map<string, SeatCache.Entry>, ttl: Time) {
    forall i :: Touched(bs, bs', i) ==> Misses(items, bs'[i].matchId, ttl)
  }

  /** A hold request adds and changes bookings of its own match only. */
  lemma HoldStaysInItsMatch(st: Shop, now: Time, m: string, s: string, b: string, ttl: int, key: string, st': Shop, a: Answer, i: Id)
    requires HoldAnswered(st, now, m, s, b, ttl, key, st', a) && Touched(st.db.bookings, st'.db.bookings, i)
    ensures a.Placed? && st'.db.bookings[i].matchId == m
  {
  }

  class Service {
    const store: Store
    const cache: Cache
    const maxRetries: int

    constructor (store: Store, cache: Cache, maxRetries: int)
      ensures this.store == store && this.cache == cache && this.maxRetries == maxRetries
    {
      this.store, this.cache, this.maxRetries := store, cache, maxRetries;
    }

    /** PlaceHoldWithKey. A success answers as the store promises, at the timestamp of one attempt. */
    method PlaceHold(now: nat -> Time, m: string, s: string, b: string, ttl: int, key: string,
                     aborted: nat -> bool, done: nat -> bool, woken: nat -> bool, nap: nat -> int) returns (r: Reply)
      requires Sane(store.View())
      modifies store, cache
      ensures Sane(store.View())
      ensures r.Success? ==> r.value.Placed? && r.value.id in store.bookings && r.value.row == store.bookings[r.value.id]
      ensures r.Success? ==> exists k: nat :: HoldAnswered(old(store.View()), now(k), m, s, b, ttl, key, store.View(), r.value)
      ensures !r.Success? ==> store.bookings == old(store.bookings) && store.keys == old(store.keys)
      ensures NothingStale(old(store.bookings), store.bookings, cache.items, cache.ttl)
      ensures cache.items == if r.Success? then old(cache.items) - {m} else old(cache.items)
    {
      var st := store.View();
      var fn := (k: nat) => Attempt(aborted(k), Place(st, now(k), m, s, b, ttl, key).1);
      var calls, slept;
      r, calls, slept := Retry.WithRetry(maxRetries, fn, done, woken, nap);
      if calls > 0 && !aborted(calls - 1) {
        var a := store.PlaceHoldWithKey(now(calls - 1), m, s, b, ttl, key);
        forall i | Touched(st.db.bookings, store.bookings, i) ensures a.Placed? && store.bookings[i].matchId == m {
          HoldStaysInItsMatch(st, now(calls - 1), m, s, b, ttl, key, store.View(), a, i);
        }
      }
      if r.Success? {
        cache.Invalidate(m);
      }
    }

    /** ConfirmHold. */
    method ConfirmHold(now: nat -> Time, id: Id, b: string,
                       aborted: nat -> bool, done: nat -> bool, woken: nat -> bool, nap: nat -> int) returns (r: Reply)
      requires Sane(store.View())
      modifies store, cache
      ensures Sane(store.View())
      ensures r.Success? ==> r.value.ConfirmedAs? && id in store.bookings && r.value.row == store.bookings[id] && r.value.row.status == Confirmed
      ensures !r.Success? ==> store.View() == old(store.View())
      ensures NothingStale(old(store.bookings), store.bookings, cache.items, cache.ttl)
      ensures cache.items == if r.Success? then old(cache.items) - {store.bookings[id].matchId} else old(cache.items)
    {
      var st := store.View();
      var fn := (k: nat) => Attempt(aborted(k), Confirm(st, now(k), id, b).1);
      var calls, slept;
      r, calls, slept := Retry.WithRetry(maxRetries, fn, done, woken, nap);
      if calls > 0 && !aborted(calls - 1) {
        var a := store.ConfirmHold(now(calls - 1), id, b);
      }
      if r.Success? {
        cache.Invalidate(r.value.row.matchId);
      }
    }

    /** CancelBooking. */
    method CancelBooking(now: nat -> Time, id: Id, b: string,
                         aborted: nat -> bool, done: nat -> bool, woken: nat -> bool, nap: nat -> int) returns (r: Reply)
      requires Sane(store.View())
      modifies store, cache
      ensures Sane(store.View())
      ensures r.Success? ==> r.value.CancelledAs? && id in store.bookings && r.value.row == store.bookings[id] && r.value.row.status == Cancelled
      ensures !r.Success? ==> store.View() == old(store.View())
      ensures NothingStale(old(store.bookings), store.bookings, cache.items, cache.ttl)
      ensures cache.items == if r.Success? then old(cache.items) - {store.bookings[id].matchId} else old(cache.items)
    {
      var st := store.View();
      var fn := (k: nat) => Attempt(aborted(k), Cancel(st, now(k), id, b).1);
      var calls, slept;
      r, calls, slept := Retry.WithRetry(maxRetries, fn, done, woken, nap);
      if calls > 0 && !aborted(calls - 1) {
        var a := store.CancelBooking(now(calls - 1), id, b);
      }
      if r.Success? {
        cache.Invalidate(r.value.row.matchId);
      }
    }

    /** ReleaseHold, which is not retried. */
    method ReleaseHold(now: Time, id: Id, b: string) returns (a: Answer)
      requires Sane(store.View())
      modifies store, cache
      ensures Sane(store.View())
      ensures a.ReleasedIn? ==> id in store.bookings && a.m == store.bookings[id].matchId && store.bookings[id].status == Cancelled
      ensures !a.ReleasedIn? ==> store.View() == old(store.View())
      ensures NothingStale(old(store.bookings), store.bookings, cache.items, cache.ttl)
      ensures cache.items == if a.ReleasedIn? then old(cache.items) - {store.bookings[id].matchId} else old(cache.items)
    {
      a := store.ReleaseHold(now, id, b);
      if a.ReleasedIn? {
        cache.Invalidate(a.m);
      }
    }
  }
}
