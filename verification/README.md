# Cricket stadium booking: a Dafny model of the booking core

The booking service sells stadium seats. A buyer places a short hold on a seat, confirms it into a
sale, may release the hold or cancel the sale, and a cancelled sale is refunded by a background
worker that drains an outbox table. PostgreSQL decides every outcome: two partial unique indexes,
compare-and-swap updates, a per-(match, buyer) advisory lock and `now()`, which is fixed when a
transaction starts and may lag the clock when it commits. This project models that core and proves
what it guarantees over every run.

The project is a set of plain Dafny 4.11 files; `dafny verify dfyconfig.toml` verifies all of them.

## How it is put together

* `Tables` holds the five tables as values and the row predicates and row versions of the SQL.
* `Interleaving` is the store at statement granularity under READ COMMITTED: any number of
  transactions, private write sets, row locks, index waits, the advisory lock, a timestamp per
  transaction drawn before its snapshots, aborts anywhere, gaps in the identity sequences. `Atomic` is
  the same store with whole transactions as steps. `Refinement` and `Runs` prove that every
  interleaving refines the atomic machine, refusals and their causes included; `History`,
  `Conservation` and `Causes` prove what holds of all atomic runs, and hence of all interleavings. `Erasure` proves
  that a transaction that never commits can be removed from any run. `Waiting` says exactly when a
  transaction waits and for whom: one buyer's requests never deadlock, and two buyers' can, which is what
  the retry on SQLSTATE 40P01 is for.
* `StoreModel` runs the Go methods statement by statement in a class and proves them against
  specification functions; `LoneCalls` shows that such a call is a path of the interleaved machine;
  `Scenarios` has runs from the initial state in which a documented promise fails. `Expiry` proves
  that calls that happen at one instant cannot tell whether the sweeper ran; `Sweeping` says, over every
  run, exactly which calls can when their `now()` lags. `Reads` has the derived reads
  and what is promised of a seat map.
* `Outbox` is the refund protocol of many workers with crashes, ambiguous errors and lapsing leases.
  `WorkerModel` has the worker's loops in a class, proves its drain rate and shows that the loops are
  paths of the protocol. `Pipeline` joins store and workers over one set of tables.
* `SeatCache` is the seat cache with singleflight as the steps of its goroutines, and `StaleReads` says
  exactly when a read can miss a write. `ServiceModel` has the cache as an object and a write as
  "retry, then invalidate", and shows that a lone load is a path of the machine; `ServiceWrites`
  has the four writes over store and cache together, and `ServiceCalls` puts the retry loop on top of
  interleaved transactions. `SnapshotVersion`, `ETag` and `ConditionalRead`
  cover the 304 decision.
* `Retry`, `Config`, `Migration`, `RateLimiter` with `SlowCalls`, and `Reconcile` are the smaller
  algorithms. `Options` and `Paths` are shared helpers.

## Where the code and a stated promise differ

Each of these follows the code. The condition given is exact, an "if and only if", but for the stored
stamps of sales, where it is sufficient.

* *At the microsecond a hold expires*, its seat reads as available and still cannot be held, because
  liveness is `>` and reclaiming is `<` (`Expiry.AvailableButRefusedIff`).
* *A TTL below one microsecond* passes validation and makes every hold dead on arrival
  (`Config.FreshHoldIsLiveIff`).
* *A lease is not exclusive*: `ReleaseClaim` does not check who owns the claim
  (`Outbox.LapsedOwnerCanReleaseAnothersClaim` is a run). An event can be claimed again iff it is
  unprocessed, and was released since its last claim or that is more than 30 s ago
  (`Outbox.ReclaimableIff`).
* *Read-your-writes* is described as immediate in the repository's README; it fails for a later reader
  iff, at the invalidate, the match's running flight still carries an older snapshot
  (`StaleReads.StaleReadIff`, with a run in `StaleReads.InFlightLoadCanBeServed`).
* *"A late confirm cannot revive an expired hold"* holds by the time the confirm started
  (`Runs.ConfirmStartedInTime`) and not by the time it commits (`Scenarios.ConfirmCanCommitLate`).
* *A key whose booking is dead lets the retry proceed fresh*: not always. A retry that looked its key up
  before another request took it over is refused on a free seat
  (`Scenarios.FreeSeatCanBeRefused`): its key is rejected iff it names another booking than at the
  lookup (`Runs.KeyRejectedIff`, `Runs.RefusedHoldsHaveACause`).
* *Sales of one seat do not overlap* in the order of events (`Runs.SalesAlternate`). The stored stamps
  agree when confirms are sent after their holds were committed (`Runs.SalesAreDisjoint`) and can
  disagree otherwise (`Scenarios.StoredSalesCanOverlap`), since `now()` is fixed before the snapshot.
* *Evicting an idle rate limiter is safe* iff no `allow` takes longer than 299 s, because the clock is
  read before the lock (`SlowCalls.EvictionIsUnobservableIff`).
* *A 304* is sent for any snapshot when a listed tag has, between two of its own commas, a star alone or
  padded with Unicode spaces, since the header is split at every comma and the pieces are trimmed
  (`ETag.NotModifiedIff`, `ETag.StarInsideATagMatchesAll`, `ETag.PaddedStarMatchesAll`).
* *Sweeping only tidies up*: so it is for calls whose `now()` is not before the sweep's, releases of what
  it took apart (`Sweeping.SweepsAreSilent`). A call with an earlier `now()` can tell: a confirm sent in
  time is refused because a sweep came first (`Scenarios.SweepCanBeTold`). Sweeps can be erased from, or
  put into, a run with every other answer kept iff no call is decided on a hold they hid, or on its seat,
  by a `now()` at which that hold was not over (`Sweeping.ErasingSweepsIff`,
  `Sweeping.InsertingSweepsIff`).

## Model

| member | source | states |
|---|---|---|
| `Runs.InterleavingsRefine` | cricket-stadium-booking/internal/store/holds.go:68-187 | the committed states of every statement-level interleaving of hold, confirm, release, cancel, sweep, prune and worker transactions, aborts included, form a run of the atomic machine with the answers as labels, in which every refusal answers a unique violation of its own request |
| `Runs.RefusedHoldsHaveACause` | cricket-stadium-booking/internal/store/holds.go:132-182 | every hold answered "seat unavailable" was rejected at an earlier move of its own transaction; at that move the seat was not to be had iff the row was rejected, and otherwise the seat was free and the key named another booking than at the lookup |
| `Runs.KeyRejectedIff` | cricket-stadium-booking/internal/store/holds.go:160-182 | when the key of an inserted hold is judged, it is rejected iff it names another booking than at the request's own lookup |
| `Scenarios.FreeSeatCanBeRefused` | cricket-stadium-booking/internal/store/holds.go:160-182 | a run from the initial state that refuses a keyed retry on a free seat while its key's booking matches it and is dead |
| `Waiting.GoesOnIff` | cricket-stadium-booking/internal/store/holds.go:68-186 | in every state of every run an unfinished transaction has a next move besides giving up iff no other one has the row, key or lock it needs; the INSERT of a hold also goes on if it fails at once on a committed row, and only fails if the seat does not exist |
| `Waiting.KeptIsStuck` | cricket-stadium-booking/internal/store/holds.go:78-116 | a transaction that needs what another has cannot move but by giving up (INSERTs that fail at once apart) |
| `Waiting.OnlyLockedHoldsKeepAndWait` | cricket-stadium-booking/internal/store/holds.go:78-116 | whoever keeps others waiting while it waits itself is a hold that has its buyer's lock: confirms, releases, cancels, sweeps and prunes are never inside a cycle of waits |
| `Waiting.OneBuyerDoesNotDeadlock` | cricket-stadium-booking/internal/store/holds.go:73-82 | the buyer's lock does what it is for: two requests of one buyer for one match never wait for each other |
| `Waiting.TwoBuyersCanDeadlock` | cricket-stadium-booking/internal/booking/service.go:177-183 | a run from the initial state in which two buyers, each asking for the seat of the other's lapsed hold, wait for each other and neither can move |
| `History.RefusalsHaveACause` | cricket-stadium-booking/internal/store/holds.go:132-182 | in every atomic run a refusal has an earlier moment at which the seat was occupied, or at which it was free and the key had been moved; a keyless one always the former |
| `Erasure.UncommittedChangesNothing` | cricket-stadium-booking/internal/store/holds.go:68-77 | a transaction that never commits can be erased from any run: the rest is a run with the same committed state at every point and the same answers to everybody else, up to gaps in the identity sequences |
| `Runs.HoldActsAtCommit` | cricket-stadium-booking/internal/store/holds.go:98-187 | at its commit a hold acts on the state it finds there as: cancel the buyer's other holds, expire the stale hold on the target, insert one hold, move the key; and the target seat is free |
| `Runs.OnlyCommitsCount` | cricket-stadium-booking/internal/store/holds.go:68-77 | an uncommitted transaction changes nothing: only commits, clock ticks and worker statements change the committed state |
| `Runs.CommittedStatesAreSound` | cricket-stadium-booking/migrations/0001_schema.sql:35-37 | in every committed state of every interleaving: one active row per seat, one hold per buyer and match, refunds and events that account for every cancelled sale |
| `Runs.NoSeatIsOversold` | cricket-stadium-booking/internal/store/invariants.go:66-77 | the oversell query finds no seat in any committed state of any interleaving |
| `Runs.ReadsAreAsPromised` | cricket-stadium-booking/internal/store/seats.go:11-40 | in every interleaving, every seat map answered has exactly one line for each seat of the match, with its section, available iff no sold or unexpired row is on it by the read's own `now()`, and otherwise with the status and expiry of that row; and every booking history answered is the promised one of the committed state |
| `Runs.SalesAlternate` | cricket-stadium-booking/internal/store/holds.go:237-254 | over any interleaved run, of two bookings of one seat, every state in which the one is confirmed comes before the other exists, or the reverse |
| `Runs.SalesAreDisjoint` | cricket-stadium-booking/internal/store/holds.go:237-254 | when every confirm is sent after its hold was committed, the stored sale intervals of one seat are disjoint in every interleaving |
| `Scenarios.StoredSalesCanOverlap` | cricket-stadium-booking/internal/store/holds.go:237-254 | a run from the initial state, with a confirm sent before its hold exists, after which two bookings of one seat store overlapping intervals |
| `Runs.RetriesAgree` | cricket-stadium-booking/internal/store/holds.go:132-182 | in any interleaving without pruning, two successes under one key were for one request, and while the first booking is held or confirmed the second returns it, by whichever path |
| `Runs.ConfirmStartedInTime` | cricket-stadium-booking/internal/store/holds.go:237-254 | a confirm that commits found its row held and had started, at a named earlier move, before the hold's expiry; its commit rewrites that row only |
| `Causes.ChangesHaveACause` | cricket-stadium-booking/migrations/0001_schema.sql:21-37 | over every run a booking's row changes only by its own buyer's confirm before its expiry, release, cancel before the match begins, or hold on another seat of the match, or, being a hold past its expiry, by a sweep or by a hold on its seat; and every column of the new row is given |
| `Causes.BookingsAreBornOfHolds` | cricket-stadium-booking/internal/store/holds.go:127-131 | every new booking is, column by column, the row that a hold asked for, on an existing seat on which every row is dead or a hold past its expiry |
| `Causes.KeysHaveACause` | cricket-stadium-booking/internal/store/holds.go:86-96 | a key comes to name a booking only by the hold that inserted it, moves only from the booking that hold's lookup found, and goes only by a prune when it is older than the retention |
| `Causes.StatementRefusalsHaveACause` | cricket-stadium-booking/internal/store/holds.go:237-274 | a confirm, release or cancel is refused only if the buyer has no such row in the status it needs, or its time was over, or the row appeared after the statement had started |
| `Causes.KeyedAnswersHaveACause` | cricket-stadium-booking/internal/store/holds.go:208-231 | a keyed request is answered with a booking only by the one its key names, when that asks for the same and is in force; reuse is reported only if it asks for something else; the seat is refused only if the key names nothing, or nothing in force |
| `Causes.SalesAreCancelledInTime` | cricket-stadium-booking/internal/store/refunds.go:28-33 | in every reachable state every cancelled sale was cancelled before its match began |
| `Causes.InterleavedChangesHaveACause` | cricket-stadium-booking/internal/store/holds.go:43-188 | the causes of changed and new bookings, and the time of cancellations, over every interleaving of statements |
| `Scenarios.ConfirmCanCommitLate` | cricket-stadium-booking/internal/store/holds.go:240-247 | a run from the initial state in which a confirm commits, and confirms, when the clock is past the hold's expiry |
| `Refinement.MoveKeepsInv` | cricket-stadium-booking/internal/store/holds.go:43-188 | every move of every transaction keeps the protocol invariant: write sets of unfinished transactions are disjoint, stay valid against the committed tables, and respect both index keys and the buyer lock |
| `Refinement.MoveRefines` | cricket-stadium-booking/internal/store/holds.go:43-188 | every move, seen from the committed state, is the atomic step its label names, rejections with what they found |
| `Refinement.CommitIsAtomic` | cricket-stadium-booking/internal/store/holds.go:184-187 | a commit, whatever was interleaved before it, is one atomic step on the state it finds |
| `Refinement.SeatIndexDecides` | cricket-stadium-booking/migrations/0008_single_active_buyer_hold.sql:27-29 | when the insert runs, a row that occupies the buyer's index key also occupies the seat's: the buyer index never rejects what the seat index accepts |
| `Refinement.RejectionIsAtomic` | cricket-stadium-booking/internal/store/holds.go:132-155 | a rejected insert found an active row on the seat that is not past its TTL at the transaction's timestamp, or is not in its snapshot |
| `Refinement.KeyRejectionIsAtomic` | cricket-stadium-booking/internal/store/holds.go:160-179 | a rejected key insert found the seat free, and the key moved since the lookup |
| `Refinement.KeyRejectedIff` | cricket-stadium-booking/internal/store/holds.go:86-96 | with the key's row in nobody else's hands, the key insert is rejected iff the key was moved, and goes through iff it was not |
| `Refinement.OthersStable` | cricket-stadium-booking/internal/store/holds.go:79-84 | while a transaction has the (match, buyer) lock, no other commit creates another hold of that buyer |
| `Refinement.UnoccupiedStable` | cricket-stadium-booking/internal/store/holds.go:127-131 | while a transaction has an uncommitted row, no other commit occupies either of its index keys |
| `Atomic.StepKeepsInv` | cricket-stadium-booking/migrations/0001_schema.sql:35-37 | every atomic step keeps: row shapes, both uniqueness conditions, births and stamps not ahead of the clock, succession of a seat's bookings, keys that name bookings made under them |
| `Atomic.RewritesKeepSeatUnique` | cricket-stadium-booking/migrations/0001_schema.sql:35-37 | no batch of row rewrites can break seat uniqueness |
| `History.LifecycleIsMonotone` | cricket-stadium-booking/migrations/0001_schema.sql:21-37 | over any stretch of any run bookings stay, keep match, seat, buyer and creation time, and move only held to confirmed, expired or cancelled and confirmed to cancelled |
| `History.SalesAlternate` | cricket-stadium-booking/internal/store/refunds.go:19-57 | of two bookings of one seat, every state in which the one is confirmed comes before the other exists, or the reverse |
| `History.SalesAreDisjoint` | cricket-stadium-booking/internal/store/refunds.go:19-57 | when confirms draw their timestamps after their holds were committed, the stored [confirmed_at, cancelled_at) intervals of one seat's bookings are disjoint in every reachable state |
| `History.ConfirmedAtMeansSold` | cricket-stadium-booking/internal/store/holds.go:237-254 | confirmed_at is set exactly on the bookings that were confirmed at some point of the run |
| `History.KeyParametersAreFixed` | cricket-stadium-booking/internal/store/holds.go:86-96 | without pruning a used key stays used, and always for the same match, seat and buyer |
| `History.OneLiveBookingPerKey` | cricket-stadium-booking/internal/store/holds.go:160-182 | at no time are two bookings made under one key live |
| `History.KeyedSuccessIsLive` | cricket-stadium-booking/internal/store/holds.go:208-231 | every keyed success, fresh or replayed, names a booking made under that key that matches the request and is live by the `now()` of the answer (the transaction's, or the lookup's own); by the clock at its commit a fresh hold is live iff less than the TTL passed since its timestamp |
| `History.RetriesAgree` | cricket-stadium-booking/internal/store/holds.go:53-66 | two keyed successes were for one request, and agree on the id while the first booking is held or confirmed |
| `Conservation.RefundsAreConserved` | cricket-stadium-booking/internal/store/refunds.go:19-57 | a booking was sold and cancelled iff exactly one refund row and exactly one refund_requested event carrying that refund's id refer to it |
| `Conservation.HistoryIff` | cricket-stadium-booking/internal/store/bookings.go:26-71 | in every reachable state a set of lines is what ListBookings returns iff it has exactly one line for each booking of the buyer in the match that was ever confirmed, with the row's seat, status and stamps, with no refund iff it is confirmed, and otherwise with the status of the booking's one refund |
| `Conservation.PrunedKeysAreDead` | cricket-stadium-booking/internal/store/invariants.go:46-60 | over all runs with validated TTLs, a pruned key maps to a confirmed booking or to one that was not live even 23 hours before |
| `Conservation.ReplacementIsExact` | cricket-stadium-booking/internal/store/holds.go:98-131 | after a fresh hold the buyer's held rows in the match are exactly the new one, only rows named by the two updates changed, and no live row of another buyer did |
| `Config.Microseconds` | cricket-stadium-booking/internal/store/holds.go:131 | the TTL is truncated toward zero to whole microseconds |
| `Config.ValidTtlIsBounded` | cricket-stadium-booking/internal/config/config.go:48-68 | a validated TTL is at most one hour, far below the key retention |
| `Config.WholeTtlIsValidIff` | cricket-stadium-booking/internal/config/config.go:48-68 | a TTL of whole microseconds passes validation iff a hold placed with it is live at its own instant and over an hour later (and the other four settings are usable) |
| `Config.FreshHoldIsLiveIff` | cricket-stadium-booking/internal/config/config.go:48-54 | under a validated configuration a new hold is live at its own instant iff the TTL is at least one microsecond |
| `Config.SubMicrosecondTtlDefeatsHolds` | cricket-stadium-booking/internal/config/config.go:48-54 | a concrete validated configuration whose holds are dead on arrival |
| `StoreModel.Store.constructor` | cricket-stadium-booking/migrations/0001_schema.sql:21-37 | empty tables over the given seats and matches |
| `StoreModel.PlaceAnswers` | cricket-stadium-booking/internal/store/holds.go:43-188 | the specification answers each request in one of five ways, given column by column: the booking its key names, unchanged, that asks for the same and is in force; a new row on a seat that nobody has, with the buyer's other holds cancelled and stale holds on the seat expired; reuse of the key; an occupied seat; a missing seat. A booking is answered as the table has it afterwards |
| `StoreModel.Store.PlaceHold` | cricket-stadium-booking/internal/store/holds.go:43-188 | the statements of placeHold, with early returns, recovery lookups and rollback, have the effect and answer of the specification, and answer a booking, fresh or replayed, with its row in the table |
| `StoreModel.Store.PlaceHoldWithKey` | cricket-stadium-booking/internal/store/holds.go:39-41 | every request is answered, and the tables are left, as promised |
| `StoreModel.Store.Recover` | cricket-stadium-booking/internal/store/holds.go:141-153 | after a unique violation a mismatch or a live mapping answers the request, a missing or dead one does not |
| `StoreModel.Store.ConfirmHold` | cricket-stadium-booking/internal/store/holds.go:237-254 | succeeds iff the row is the buyer's own, held and unexpired; then exactly that row changes, every column as given, and is the answer; otherwise nothing changes |
| `StoreModel.Store.ReleaseHold` | cricket-stadium-booking/internal/store/holds.go:260-274 | succeeds iff the row is the buyer's own and held, expired or not; then exactly that row is cancelled and its match is the answer; otherwise nothing changes |
| `StoreModel.Store.CancelBooking` | cricket-stadium-booking/internal/store/refunds.go:19-57 | succeeds iff the row is the buyer's own sale in a match that has not begun; then the row is cancelled and answered, with one pending refund of it and one open event carrying that refund; otherwise nothing changes |
| `StoreModel.Store.SweepExpiredHolds` | cricket-stadium-booking/internal/store/invariants.go:22-36 | expires exactly a legal batch of holds past their expiry (up to the limit, those that expired first, all if they fit), leaves every other row alone and returns the number |
| `StoreModel.PickSweepBatch` | cricket-stadium-booking/internal/store/invariants.go:25-31 | the sub-select picks up to the limit of the holds past their TTL, all of them if they fit, none later than one left behind |
| `StoreModel.Store.PruneIdempotencyKeys` | cricket-stadium-booking/internal/store/invariants.go:46-60 | drops exactly a legal batch of keys past the retention (up to the limit, the oldest first, all if they fit), nothing else, and returns the number |
| `StoreModel.PickPruneBatch` | cricket-stadium-booking/internal/store/invariants.go:48-56 | the sub-select picks up to the limit of the keys older than the horizon, all of them if they fit, none younger than one left behind |
| `StoreModel.TakenIffBlocked` | cricket-stadium-booking/internal/store/holds.go:104-131 | after its two updates the hold path finds the seat's index key taken iff before them someone had the seat other than by a stale hold |
| `StoreModel.BuyerIndexAddsNothing` | cricket-stadium-booking/internal/store/holds.go:104-131 | after the updates the buyer's index key is taken only if the seat's is |
| `StoreModel.GrantIsAStep` | cricket-stadium-booking/internal/store/holds.go:98-187 | a grant of the sequential specification is a hold step of the atomic machine, a key re-pointed from a dead booking included |
| `StoreModel.OtherCallsAreSteps` | cricket-stadium-booking/internal/store/refunds.go:19-57 | confirm, release, cancel and sweep of the sequential specification are steps of the atomic machine, refusals included |
| `LoneCalls.LoneHoldIsAPath` | cricket-stadium-booking/internal/store/holds.go:43-188 | in any reachable state whose open transactions have written and locked nothing, placeHold alone is a path of the interleaved machine that ends with the tables and the answer of the specification, whatever the outcome; a booking it answers is the row in those tables |
| `LoneCalls.LoneStatementIsAPath` | cricket-stadium-booking/internal/store/refunds.go:19-57 | so are ConfirmHold, ReleaseHold and CancelBooking alone: they commit iff the specification succeeds, find nothing otherwise, leave its tables, and answer with the row, or the match, that those tables have under the id |
| `Sweeping.ErasingSweepsIff` | cricket-stadium-booking/internal/store/invariants.go:22-36 | over every run of holds, confirms, releases, cancels, lookups and reads, each with a `now()` of its own: sweeps can be erased with every other answer kept iff no call is decided on a hold they hid, or on its seat, by a `now()` before its expiry (confirms, lookups, seat maps) or not after it (holds); the two runs then agree up to dead rows |
| `Sweeping.InsertingSweepsIff` | cricket-stadium-booking/internal/store/invariants.go:22-36 | sweeps of any batches can be put into a run anywhere, with every answer kept, iff the same holds |
| `Sweeping.SweepsAreSilent` | cricket-stadium-booking/internal/store/invariants.go:22-36 | in particular, whichever sweeps are erased, when later calls draw their `now()` no earlier than the sweep and release nothing it took |
| `Sweeping.InterleavedSweepsIff` | cricket-stadium-booking/internal/store/invariants.go:22-36 | the same over every interleaving of statements |
| `Scenarios.SweepCanBeTold` | cricket-stadium-booking/internal/store/holds.go:237-254 | two runs from the initial state that differ in one sweep of a hold that is over: a confirm sent before the expiry commits without it and is refused with it |
| `Expiry.SweepsAreUnobservable` | cricket-stadium-booking/internal/store/invariants.go:22-36 | for calls that happen at one instant each, in clock order: deleting every sweep, whatever batches the sweeps took, changes no answer of placing, confirming, cancelling, the seat map or the history |
| `Expiry.TranscriptsAgree` | cricket-stadium-booking/internal/store/invariants.go:22-36 | for such calls, shops that differ only in how never-sold dead rows are stored give the same transcript, with or without sweeps |
| `Expiry.PlaceAlike` | cricket-stadium-booking/internal/store/holds.go:43-188 | collapsing dead rows is a homomorphism for placing holds, keyed or not |
| `Expiry.ConfirmAlike` | cricket-stadium-booking/internal/store/holds.go:237-254 | and for confirming |
| `Expiry.CancelAlike` | cricket-stadium-booking/internal/store/refunds.go:19-57 | and for cancelling |
| `Expiry.SeatMapAlike` | cricket-stadium-booking/internal/store/seats.go:11-40 | and for the derived seat map, section, status and expiry of each line included |
| `Expiry.HistoryAlike` | cricket-stadium-booking/internal/store/bookings.go:26-71 | and for the booking history, refund status included |
| `Expiry.ReleaseAlike` | cricket-stadium-booking/internal/store/holds.go:260-274 | releasing keeps shops alike and answers alike unless the hold is dead |
| `Expiry.ReleaseTellsSweptHolds` | cricket-stadium-booking/internal/store/holds.go:260-274 | releasing tells a sweep exactly when the sweep took that very row, held past its TTL by this buyer |
| `Reads.SeatMapIff` | cricket-stadium-booking/internal/store/seats.go:11-40 | given seat uniqueness, a set of lines is what ListSeats returns iff it has exactly one line for each seat of the match, with its section, that is available iff no row on the seat is confirmed or held with an expiry after now, and otherwise shows that one row's status and expiry |
| `Reads.RefundShownIs` | cricket-stadium-booking/internal/store/bookings.go:31-37 | the lateral join shows the newest refund of a booking, and none iff it has none |
| `Expiry.AvailableButRefusedIff` | cricket-stadium-booking/internal/store/seats.go:20 | a held seat reads as available and refuses a hold iff now is the hold's expiry to the microsecond |
| `Outbox.StepKeepsInv` | cricket-stadium-booking/cmd/worker/main.go:93-143 | every worker step, crash and ambiguous error keeps the protocol's invariant |
| `Outbox.NoRefundIsLost` | cricket-stadium-booking/cmd/worker/main.go:93-143 | in every reachable state every refund is pending or refunded; it is refunded iff it is stamped and iff it bears a reference, which is that of a call the gateway got for it; a pending one has an unprocessed event naming it, and the refund of a processed event is refunded |
| `Outbox.RefundedIffSettled` | cricket-stadium-booking/internal/store/refunds.go:59-71 | a refund is refunded iff some worker's applied mark found it pending; there is at most one such move, and the row is the one it wrote, with the clock of that move and the reference of that worker's own call |
| `Outbox.RefundedRefundsAreFrozen` | cricket-stadium-booking/internal/store/refunds.go:62-71 | a refund leaves pending at most once; from then on its row, reference included, never changes |
| `Outbox.ClaimsAreALeaseApart` | cricket-stadium-booking/internal/store/outbox.go:40-65 | two claims of one event with no release of it in between are more than 30 s apart, for any number of workers |
| `Outbox.ReclaimableIff` | cricket-stadium-booking/internal/store/outbox.go:53-98 | an event can be claimed again after its last claim iff it is unprocessed and either a release of it was applied, while it was unprocessed, since, or more than 30 s have passed |
| `Outbox.UnclaimedIsClaimable` | cricket-stadium-booking/internal/store/outbox.go:53-65 | an event that nobody has claimed yet can be claimed iff it is unprocessed |
| `Outbox.LapsedOwnerCanReleaseAnothersClaim` | cricket-stadium-booking/internal/store/outbox.go:90-98 | a concrete run in which a worker whose lease lapsed releases another worker's fresh claim, which a third then takes at once |
| `WorkerModel.OutboxStore.PollUnprocessed` | cricket-stadium-booking/internal/store/outbox.go:53-83 | claims as many claimable events as the limit allows, oldest first, and stamps exactly those |
| `WorkerModel.OutboxStore.MarkRefundStatus` | cricket-stadium-booking/internal/store/refunds.go:62-71 | a pending refund becomes refunded, with the time and the reference given; a refund that is not pending, and every other one, stays as it is |
| `WorkerModel.OutboxStore.MarkProcessed` | cricket-stadium-booking/internal/store/outbox.go:103-111 | stamps the event iff it is unprocessed |
| `WorkerModel.OutboxStore.ReleaseClaim` | cricket-stadium-booking/internal/store/outbox.go:90-98 | clears the claim of an unprocessed event, whoever owns it, so that any poll can take it |
| `WorkerModel.OutboxStore.HandleEvent` | cricket-stadium-booking/cmd/worker/main.go:99-142 | the dead-letter, failing and successful paths for one event, with any fault |
| `WorkerModel.OutboxStore.ProcessBatch` | cricket-stadium-booking/cmd/worker/main.go:93-143 | a whole tick claims a legal batch and handles each of its events in order |
| `WorkerModel.TickIsAPath` | cricket-stadium-booking/cmd/worker/main.go:93-143 | whatever faults occur, a tick is a path of the many-worker protocol that ends in the tables ProcessBatch leaves |
| `WorkerModel.HandlingIsAPath` | cricket-stadium-booking/cmd/worker/main.go:99-142 | so is the handling of each single event |
| `WorkerModel.TickDrains` | cricket-stadium-booking/cmd/worker/main.go:93-143 | with no lease outstanding a failure-free tick lowers the backlog by min(limit, backlog), dead letters included |
| `WorkerModel.BacklogAfter` | cricket-stadium-booking/internal/store/outbox.go:53-65 | the exact backlog after k such ticks |
| `WorkerModel.OutboxDrains` | cricket-stadium-booking/cmd/worker/main.go:93-143 | ceil(U / N) such ticks leave no unprocessed event, and every refund that was pending is refunded, at the time of one of the ticks and with the reference of a gateway call made for it; refunds that were not pending are untouched |
| `WorkerModel.FailedEventIsRetried` | cricket-stadium-booking/cmd/worker/main.go:127-138 | an event whose refund could not be marked and whose claim was returned can be claimed at once by any poll |
| `WorkerModel.ReachableDesksAreAnnounced` | cricket-stadium-booking/internal/store/outbox.go:22-34 | every reachable state of the protocol meets the drain theorem's condition on pending refunds |
| `Pipeline.StoreRuns` | cricket-stadium-booking/internal/store/refunds.go:19-57 | a combined run of transactions and workers over one set of tables, seen from the store, is an interleaved run |
| `Pipeline.WorkersRun` | cricket-stadium-booking/cmd/worker/main.go:93-143 | seen from the workers it is a run of the refund protocol, the commit of a cancellation being its request |
| `Pipeline.CancelledSalesAreRefunded` | cricket-stadium-booking/internal/store/refunds.go:19-57 | in every state of every combined run a booking has a refund iff it was sold and cancelled, never two, and each refund is pending with an unprocessed event, or refunded, stamped, with the reference of a call the gateway got for it |
| `Pipeline.HistoryShowsRefunds` | cricket-stadium-booking/internal/store/bookings.go:31-37 | in every state of every combined run the buyer's history shows a refund for exactly the cancelled sales: the status of the one refund, pending with an open event, or refunded by a gateway call |
| `SeatCache.OneLoaderPerMatch` | cricket-stadium-booking/internal/booking/seatcache.go:112-127 | at any point of any interleaving at most one loader of a match runs |
| `SeatCache.LoadsAreATtlApart` | cricket-stadium-booking/internal/booking/seatcache.go:112-127 | between two successful loads of a match either someone invalidated it or more than one TTL passed from stamp to stamp |
| `SeatCache.AnswersAreRecentSnapshots` | cricket-stadium-booking/internal/booking/seatcache.go:44-64 | every answer is a snapshot taken between its flight's start and now; a hit at t was stamped no earlier than t - TTL |
| `SeatCache.LoadsSeeTheWrite` | cricket-stadium-booking/internal/booking/hold.go:32-39 | a load that starts after a write's invalidate sees the write unless a flight that carried an older snapshot at the invalidate supplied it, and a cached leftover is served at most until its stamp plus TTL |
| `SeatCache.ReadYourWrites` | cricket-stadium-booking/internal/booking/seatcache.go:97-101 | with no flight carrying an older snapshot at the invalidate, every later load sees the write |
| `StaleReads.StaleReadIff` | cricket-stadium-booking/internal/booking/seatcache.go:97-137 | a run that ends with the invalidate of a write can go on to hide the write from a later reader iff at the invalidate a flight of the match carried an older snapshot: snapped, stamped, returned, or found fresh by the re-check |
| `StaleReads.InFlightLoadCanBeServed` | cricket-stadium-booking/internal/booking/hold.go:32-39 | a run from the initial state that answers a later reader from before a committed and invalidated write |
| `ServiceModel.Cache.Get` | cricket-stadium-booking/internal/booking/seatcache.go:44-52 | a hit iff present and not past its expiry |
| `ServiceModel.Cache.Put` | cricket-stadium-booking/internal/booking/seatcache.go:54-64 | stores the stamped entry and nothing else |
| `ServiceModel.Cache.Invalidate` | cricket-stadium-booking/internal/booking/seatcache.go:97-101 | drops the match and nothing else |
| `ServiceModel.Cache.Load` | cricket-stadium-booking/internal/booking/seatcache.go:112-137 | hit, re-check hit, loader error or put; the loader is used iff both looks miss |
| `ServiceModel.Cache.Write` | cricket-stadium-booking/internal/booking/hold.go:18-41 | a service write calls the store at most retries + 1 times, all but the last failing retryably; after a success the match misses at every time, otherwise and for other matches the cache is as before |
| `ServiceWrites.Service.PlaceHold` | cricket-stadium-booking/internal/booking/hold.go:18-41 | store, retry and cache together: a success is answered as the store promises, and every match of which a booking was added or changed then misses in the cache at every time; a failure leaves bookings, keys and cache as they were; entries of other matches stay |
| `ServiceWrites.Service.ConfirmHold` | cricket-stadium-booking/internal/booking/confirm.go:5-23 | so for confirming, whose match is that of the answered row |
| `ServiceWrites.Service.CancelBooking` | cricket-stadium-booking/internal/booking/cancel.go:8-27 | and for cancelling |
| `ServiceWrites.Service.ReleaseHold` | cricket-stadium-booking/internal/booking/hold.go:43-55 | and for releasing, without retry, whose match is the store's answer |
| `ServiceModel.LoneLoadIsAPath` | cricket-stadium-booking/internal/booking/seatcache.go:112-137 | in any state with no flight of the match, an uninterrupted load is a path of the interleaved machine with the entries and the answer of the method |
| `SnapshotVersion.WriteSeat` | cricket-stadium-booking/internal/booking/seatcache.go:80-88 | appends the four frames of one seat |
| `SnapshotVersion.WriteVersion` | cricket-stadium-booking/internal/booking/seatcache.go:71-91 | the loop feeds the hash exactly the stream of the match and its seats |
| `SnapshotVersion.StreamRoundTrip` | cricket-stadium-booking/internal/booking/seatcache.go:66-91 | parsing undoes printing for every match and seat list |
| `SnapshotVersion.VersionsTellSnapshotsApart` | cricket-stadium-booking/internal/booking/seatcache.go:66-91 | with a collision-free hash two snapshots have one version iff they are equal |
| `ETag.EtagMatches` | cricket-stadium-booking/internal/httpapi/delivery.go:139-156 | the search loop finds a match iff some piece of the header, trimmed of every Unicode space, is a star or names the current tag |
| `ETag.NotModifiedIff` | cricket-stadium-booking/internal/httpapi/delivery.go:139-156 | for every list of entity tags, the exact condition for a 304: a tag weakly equal to the current one, or one with a star alone, but for spaces, between two of its commas |
| `ETag.NotModifiedIffNamed` | cricket-stadium-booking/internal/httpapi/delivery.go:139-156 | for comma-free tags a 304 is sent iff a listed tag weakly equals the current one, as in sections 8.8.3.2 and 13.1.2 of RFC 9110 |
| `ETag.StarInsideATagMatchesAll` | cricket-stadium-booking/internal/httpapi/delivery.go:139-156 | a concrete tag that matches every snapshot |
| `ETag.PaddedStarMatchesAll` | cricket-stadium-booking/internal/httpapi/delivery.go:139-156 | so does a legal tag whose star is padded with em spaces |
| `ConditionalRead.NotModifiedIffClientHasIt` | cricket-stadium-booking/internal/httpapi/seats.go:32-39 | a client that lists the tags of the snapshots it has gets a 304 iff it has the current one |
| `Retry.WithRetry` | cricket-stadium-booking/internal/booking/service.go:62-99 | at most max(0, maxRetries) + 1 calls, all but the last failing retryably; success iff the last call succeeded; which error or cancellation is reported; the exact total slept, and with jittered sleeps at most the sum of the ceilings |
| `Retry.NapsStayWithin` | cricket-stadium-booking/internal/booking/service.go:107-119 | sleeps within their jitter total at most the sum of the ceilings |
| `Retry.CeilingIsMin` | cricket-stadium-booking/internal/booking/service.go:107-119 | clamping the shift loses nothing: the ceiling is min(10 ms * 2^i, 1 s) for every attempt, without int64 overflow |
| `Retry.SleepBoundClosedForm` | cricket-stadium-booking/internal/booking/service.go:107-119 | for n >= 7 the bound is 1270 ms + (n - 7) s |
| `ServiceCalls.ServiceCall` | cricket-stadium-booking/internal/booking/hold.go:18-41 | a service call whose attempts are successive transactions of an interleaved run: at most retries + 1 attempts; it acts on the committed state at most once, by the commit that ends the last attempt made; every attempt but the last was rolled back under 40001 or 40P01, and it gives up early on no such attempt |
| `ServiceCalls.RetriedIff` | cricket-stadium-booking/internal/booking/service.go:177-183 | an attempt is retried iff it was rolled back under 40001 or 40P01; a lost acknowledgement of a commit is not |
| `ServiceCalls.AtMostOneCommit` | cricket-stadium-booking/internal/booking/service.go:62-99 | with every attempt but the last ended by a retryable abort, only the last can commit, and only once |
| `ServiceCalls.ActsAreCommits` | cricket-stadium-booking/internal/booking/hold.go:22-31 | the attempts change the committed state by their commits only, whatever is interleaved |
| `Migration.Migrate` | cricket-stadium-booking/migrations/0008_single_active_buyer_hold.sql:7-29 | from any table with seat uniqueness and the CHECK on held rows, the two updates leave one that also has buyer-hold uniqueness, each row as Normalised says |
| `Migration.RowIsNormalised` | cricket-stadium-booking/migrations/0008_single_active_buyer_hold.sql:7-25 | non-holds untouched, past holds expired, the newest unexpired hold by (created_at, id) kept, the others cancelled |
| `Migration.SomeHoldSurvives` | cricket-stadium-booking/migrations/0008_single_active_buyer_hold.sql:13-25 | whoever had an unexpired hold in a match keeps one, unchanged |
| `Migration.MigrationMakesBuyerUnique` | cricket-stadium-booking/migrations/0008_single_active_buyer_hold.sql:27-29 | a table normalised row by row satisfies the new index |
| `RateLimiter.IpRateLimiter.Enter` | cricket-stadium-booking/internal/httpapi/ratelimit.go:42-49 | the section under the mutex finds or creates the client's entry and stamps it with the clock read before |
| `RateLimiter.IpRateLimiter.Spend` | cricket-stadium-booking/internal/httpapi/ratelimit.go:50 | spends a token of the bucket the caller holds iff one is available |
| `RateLimiter.IpRateLimiter.Allow` | cricket-stadium-booking/internal/httpapi/ratelimit.go:40-51 | both in turn, for a goroutine that nobody overtakes; a new client starts with a full bucket |
| `RateLimiter.IpRateLimiter.Cleanup` | cricket-stadium-booking/internal/httpapi/ratelimit.go:57-70 | the loop drops exactly the clients idle for over ten minutes |
| `RateLimiter.EvictionIsUnobservable` | cricket-stadium-booking/internal/httpapi/ratelimit.go:40-70 | if no call takes longer than 299 s, every run, however the goroutines interleave, is answered as if eviction never happened |
| `SlowCalls.EvictionIsUnobservableIff` | cricket-stadium-booking/internal/httpapi/ratelimit.go:40-70 | eviction is unobservable in all runs whose calls take at most d iff d is at most 299 s |
| `SlowCalls.SlowCallsRevealEviction` | cricket-stadium-booking/internal/httpapi/ratelimit.go:41-50 | for every larger bound, a run within it in which a client is answered differently because the janitor ran, and a window of T seconds admits more than 20 + 10 T |
| `RateLimiter.WindowBound` | cricket-stadium-booking/internal/httpapi/ratelimit.go:40-70 | if no call takes longer than 299 s, in any run a window of T seconds admits at most 20 + 10 T requests of one client, however calls and evictions interleave |
| `RateLimiter.RefusedOnlyOverTheRate` | cricket-stadium-booking/internal/httpapi/ratelimit.go:40-70 | conversely, if no call takes longer than 299 s, a request is refused only if in some window up to it, of T seconds, the requests admitted and this one would be more than 20 + 10 T |
| `Reconcile.Container.Reconcile` | cricket-stadium-booking/web/app.js:208-226 | the children end up as the desired nodes followed by the leftovers in their order, with no insertion when the desired nodes already are a prefix |
| `Reconcile.InsertTurn` | cricket-stadium-booking/web/app.js:216-225 | inserting before the cursor puts the next desired node in place, keeps the cursor and the order of the rest |
| `Reconcile.CursorTurn` | cricket-stadium-booking/web/app.js:216-221 | a node already at the cursor is passed over and nothing moves |
| `Reconcile.PrefixCursor` | cricket-stadium-booking/web/app.js:216-221 | while the desired nodes are a prefix the cursor always meets the next one |

## Left out

- HTTP routing, JSON, gzip, content types, static assets, logging, start-up and shutdown: input and output around the core.
- The rest of the web page (DOM, timers, seat geometry) and the load-test driver: user interface, and a driver whose checks are theorems here.
- The connection pool and context deadlines: present only as aborts at any point, errors whose effect may or may not have been applied, and cancellation flags.
- SHA-256, time formatting, random jitter and clocks: a collision-free digest, a non-empty text per instant, and parameters.
- The payment gateway's effect: only the log of calls; calls are at least once, so nothing is said about exactly-once payment.
- Performance-only indexes, seed data, buyer identity and authentication.
- Advisory-lock hash collisions: two different (match, buyer) pairs that share a lock would only wait more.
- The order and size limit of sweep and prune batches in the interleaved machine: any batch of qualifying rows is allowed, which includes the one the query picks.
- The order of rows in the seat map and the booking history: results are compared as sets of lines, whose columns determine the order.
- `StuckHolds` and `CountByStatus`: plain counts.
- The start of a lookup or a read: it changes nothing, so only its answer is a move, which carries the `now()` drawn at or before it (for the lookup after a unique violation, not before the transaction's own).
- ETag.EtagMatches: header values are sequences of characters; bytes that are not valid UTF-8 are not modelled.
- RateLimiter.WindowBound: tokens are exact reals and a spend is atomic at its own reading of the clock; float rounding, and readings that reach the library's bucket out of order, are not modelled.
- Reconcile.Container.Reconcile: covers duplicate-free desired lists, which is what its callers build from keyed nodes; nodes that sit in another container are not modelled.
- ServiceModel.Cache.Write: stands for the hold, confirm and cancel wrappers alike; the conversion of store rows to API values is not modelled.
- ServiceWrites.Service.PlaceHold: with nothing interleaved, like its three companions; an attempt that the server aborts leaves the tables as they are, and the identity numbers it drew are not counted.
- ServiceCalls.ServiceCall: that the server reports a serialization failure or a deadlock only for a transaction it rolled back is taken from PostgreSQL.
