/**
 A service call on top of the store (internal/booking/hold.go:18-41, confirm.go, cancel.go): the store's
 call under withRetry, as successive transactions of an interleaved run. The server reports a
 serialization failure or a deadlock only for a transaction it has rolled back.
 */
module ServiceCalls {
  import opened Options
  import opened Tables
  import opened Interleaving
  import opened Paths
  import Erasure
  import Retry
  import Runs

  // ---------------------------------------------------------------- attempts

  /** One call of the store: transaction `t` from move `from` to its last move `to`, and the SQLSTATE it
      reported, if any. */
  datatype Attempt = Attempt(t: nat, from: nat, to: nat, code: string)

  predicate Begins(mv: Move, t: nat) {
    (mv.LookupProceeds? && mv.t == t) || (mv.StartStatement? && mv.t == t)
  }

  /** The transaction is over, one way or another. */
  predicate Finishes(mv: Move, t: nat) {
    || mv == Commit(t) || mv == Abort(t) || mv == FindNothing(t) || mv == RecoveryMismatches(t)
    || (mv.RecoveryRefuses? && mv.t == t) || (mv.RecoveryReplays? && mv.t == t)
  }

  /** A request that the fast path answers opens no transaction. */
  predicate AnswersAtOnce(mv: Move) {
    mv.LookupReplays? || mv.LookupMismatches?
  }

  ghost predicate IsAttempt(mvs: seq<Move>, a: Attempt) {
    && a.from <= a.to < |mvs|
    && (if a.from == a.to then AnswersAtOnce(mvs[a.to])
        else Begins(mvs[a.from], a.t) && Finishes(mvs[a.to], a.t) && forall k :: a.from < k < a.to ==> !Finishes(mvs[k], a.t))
  }

  /** isRetryable (service.go:177-183). */
  predicate IsRetryable(code: string) {
    code == "40001" || code == "40P01"
  }

  /** What the caller learns from the last move. A commit whose acknowledgement is lost is an error, and
      not a retryable one. */
  function OutcomeOf(mv: Move, code: string): Retry.Outcome<Move, string> {
    match mv
    case Commit(_) => if code == "" then Retry.Ok(mv) else Retry.Fatal(code)
    case LookupReplays(_, _, _) => Retry.Ok(mv)
    case RecoveryReplays(_, _, _) => Retry.Ok(mv)
    case Abort(_) => if IsRetryable(code) then Retry.Retryable(code) else Retry.Fatal(code)
    case _ => Retry.Fatal(code)
  }

  /** The attempt was rolled back as a serialization failure or as a deadlock. */
  predicate IsTransient(mvs: seq<Move>, a: Attempt) {
    a.to < |mvs| && mvs[a.to].Abort? && (a.code == "40001" || a.code == "40P01")
  }

  function Attempted(mvs: seq<Move>, tries: seq<Attempt>, k: nat): Retry.Outcome<Move, string> {
    if k < |tries| && tries[k].to < |mvs| then OutcomeOf(mvs[tries[k].to], tries[k].code) else Retry.Fatal("")
  }

  /** An attempt is retried iff it was rolled back as a serialization failure or a deadlock. */
  lemma RetriedIff(mvs: seq<Move>, tries: seq<Attempt>, k: nat)
    requires k < |tries| && IsAttempt(mvs, tries[k])
    ensures Attempted(mvs, tries, k).Retryable? <==> IsTransient(mvs, tries[k])
  {
  }

  // ---------------------------------------------------------------- one commit

  /** Move `n` is a commit of attempt `a`. */
  predicate CommitsIn(mvs: seq<Move>, a: Attempt, n: nat) {
    a.from <= n <= a.to && n < |mvs| && mvs[n] == Commit(a.t)
  }

  /** The commits of a service call. */
  ghost function CommitMoves(mvs: seq<Move>, tries: seq<Attempt>): set<nat> {
    set n: nat, k: nat | k < |tries| && n < |mvs| && CommitsIn(mvs, tries[k], n) :: n
  }

  lemma AttemptCommitsLast(mvs: seq<Move>, a: Attempt, n: nat)
    requires IsAttempt(mvs, a) && CommitsIn(mvs, a, n)
    ensures n == a.to && !OutcomeOf(mvs[a.to], a.code).Retryable?
  {
    if n < a.to {
      assert !Begins(mvs[n], a.t) && Finishes(mvs[n], a.t);
    }
  }

  lemma CommitIsTheLast(mvs: seq<Move>, tries: seq<Attempt>, k: nat, n: nat)
    requires k < |tries| && IsAttempt(mvs, tries[k]) && CommitsIn(mvs, tries[k], n)
    requires k < |tries| - 1 ==> Attempted(mvs, tries, k).Retryable?
    ensures k == |tries| - 1 && n == tries[k].to
  {
    AttemptCommitsLast(mvs, tries[k], n);
  }

  function LastMove(tries: seq<Attempt>): set<nat> {
    if tries == [] then {} else {tries[|tries| - 1].to}
  }

  lemma CommitsAreLast(mvs: seq<Move>, tries: seq<Attempt>)
    requires forall k :: 0 <= k < |tries| ==> IsAttempt(mvs, tries[k])
    requires forall k :: 0 <= k < |tries| - 1 ==> Attempted(mvs, tries, k).Retryable?
    ensures CommitMoves(mvs, tries) <= LastMove(tries)
  {
    forall n | n in CommitMoves(mvs, tries) ensures n in LastMove(tries) {
      var k: nat :| k < |tries| && CommitsIn(mvs, tries[k], n);
      CommitIsTheLast(mvs, tries, k, n);
    }
  }

  /** With every attempt but the last failing retryably, only the last can commit, and only once. */
  lemma AtMostOneCommit(mvs: seq<Move>, tries: seq<Attempt>)
    requires forall k :: 0 <= k < |tries| ==> IsAttempt(mvs, tries[k])
    requires forall k :: 0 <= k < |tries| - 1 ==> Attempted(mvs, tries, k).Retryable?
    ensures CommitMoves(mvs, tries) <= (if tries == [] then {} else {tries[|tries| - 1].to})
    ensures |CommitMoves(mvs, tries)| <= 1
  {
    CommitsAreLast(mvs, tries);
    SubsetSize(CommitMoves(mvs, tries), LastMove(tries));
  }

  lemma SubsetSize(a: set<nat>, b: set<nat>)
    requires a <= b
    ensures |a| <= |b|
  {
    assert b == a + (b - a);
  }

  /** A move of the transaction that is not its commit changes nothing anyone else can see. */
  lemma OnlyTheCommitActs(ss: seq<State>, mvs: seq<Move>, a: Attempt, n: nat)
    requires Runs.IsRun(ss, mvs) && n < |mvs| && Erasure.MoverOf(mvs[n]) == Some(a.t) && ss[n + 1].w != ss[n].w
    ensures mvs[n] == Commit(a.t)
  {
    assert Next(ss[n], mvs[n], ss[n + 1]);
    if !mvs[n].Commit? {
      Runs.OnlyCommitsCount(ss[n], mvs[n], ss[n + 1]);
    }
  }

  /** The committed state changes at move `n`, which belongs to one of the attempts. */
  ghost predicate ActsAt(ss: seq<State>, mvs: seq<Move>, tries: seq<Attempt>, n: nat)
    requires |ss| == |mvs| + 1
  {
    n < |mvs| && ss[n + 1].w != ss[n].w &&
    exists k :: 0 <= k < |tries| && tries[k].from <= n <= tries[k].to && Erasure.MoverOf(mvs[n]) == Some(tries[k].t)
  }

  /** Over an interleaved run, whatever its other transactions do, the attempts of a service call act on the
      committed state by their commits only. */
  lemma ActsAreCommits(ss: seq<State>, mvs: seq<Move>, tries: seq<Attempt>, n: nat)
    requires Runs.IsRun(ss, mvs) && ActsAt(ss, mvs, tries, n)
    ensures n in CommitMoves(mvs, tries)
  {
    var k :| 0 <= k < |tries| && tries[k].from <= n <= tries[k].to && Erasure.MoverOf(mvs[n]) == Some(tries[k].t);
    OnlyTheCommitActs(ss, mvs, tries[k], n);
    assert CommitsIn(mvs, tries[k], n);
  }

  /** `mvs` are the moves of an interleaved run through the states `ss`. */
  ghost predicate OfRun(ss: seq<State>, mvs: seq<Move>) {
    IsPath(Next, ss, mvs) && Init(ss[0])
  }

  lemma OfRunIff(ss: seq<State>, mvs: seq<Move>)
    ensures OfRun(ss, mvs) <==> Runs.IsRun(ss, mvs)
  {
    if OfRun(ss, mvs) {
      forall k | 0 <= k < |mvs| ensures Next(ss[k], mvs[k], ss[k + 1]) {
        StepAt(Next, ss, mvs, k);
      }
    }
  }

  /** The attempts follow one another. */
  ghost predicate InOrder(tries: seq<Attempt>) {
    forall j, k :: 0 <= j < k < |tries| ==> tries[j].to < tries[k].from
  }

  /** The committed state changes by a move of one of the attempts only where one of them commits. */
  ghost predicate ActsByCommits(ss: seq<State>, mvs: seq<Move>, tries: seq<Attempt>) {
    |ss| == |mvs| + 1 && forall n: nat :: ActsAt(ss, mvs, tries, n) ==> n in CommitMoves(mvs, tries)
  }

  lemma RunActsByCommits(ss: seq<State>, mvs: seq<Move>, tries: seq<Attempt>)
    requires OfRun(ss, mvs)
    ensures ActsByCommits(ss, mvs, tries)
  {
    OfRunIff(ss, mvs);
    forall n: nat | ActsAt(ss, mvs, tries, n) ensures n in CommitMoves(mvs, tries) {
      ActsAreCommits(ss, mvs, tries, n);
    }
  }

  /** No commit of an attempt is followed by a move of a later one. */
  ghost predicate NothingFollows(mvs: seq<Move>, tries: seq<Attempt>) {
    forall n, k :: n in CommitMoves(mvs, tries) && 0 <= k < |tries| ==> tries[k].from <= n
  }

  lemma CommitComesLast(mvs: seq<Move>, tries: seq<Attempt>)
    requires InOrder(tries) && forall k :: 0 <= k < |tries| ==> IsAttempt(mvs, tries[k])
    requires CommitMoves(mvs, tries) <= (if tries == [] then {} else {tries[|tries| - 1].to})
    ensures NothingFollows(mvs, tries)
  {
  }

  /** A service call under withRetry: its attempts are successive transactions of an interleaved run. It acts
      on the committed state at most once, by the commit that ends the last attempt it makes. */
  method ServiceCall(maxRetries: int, mvs: seq<Move>, tries: seq<Attempt>, done: nat -> bool, woken: nat -> bool, nap: nat -> int,
                     ghost ss: seq<State>)
      returns (r: Retry.Result<Move, string>, calls: nat)
    requires OfRun(ss, mvs) && InOrder(tries)
    requires |tries| > Retry.Max(0, maxRetries) && forall k :: 0 <= k < |tries| ==> IsAttempt(mvs, tries[k])
    ensures calls <= Retry.Max(0, maxRetries) + 1
    ensures r.Success? <==> calls > 0 && Attempted(mvs, tries, calls - 1).Ok?
    ensures forall k :: 0 <= k < calls - 1 ==> IsTransient(mvs, tries[k])
    ensures r.Failure? ==> calls > 0 && (calls <= Retry.Max(0, maxRetries) ==> !IsTransient(mvs, tries[calls - 1]))
    ensures CommitMoves(mvs, tries[..calls]) <= (if calls == 0 then {} else {tries[calls - 1].to})
    ensures |CommitMoves(mvs, tries[..calls])| <= 1
    ensures ActsByCommits(ss, mvs, tries[..calls]) && NothingFollows(mvs, tries[..calls])
  {
    var slept;
    var fn := (k: nat) => Attempted(mvs, tries, k);
    r, calls, slept := Retry.WithRetry(maxRetries, fn, done, woken, nap);
    forall k | 0 <= k < calls - 1 ensures Attempted(mvs, tries, k).Retryable? {
      assert fn(k).Retryable?;
    }
    if calls > 0 {
      assert fn(calls - 1) == Attempted(mvs, tries, calls - 1);
      RetriedIff(mvs, tries, calls - 1);
    }
    AttemptsActOnce(ss, mvs, tries, calls);
  }

  /** What the attempts made, all but the last failing retryably, do to the committed state. */
  lemma AttemptsActOnce(ss: seq<State>, mvs: seq<Move>, tries: seq<Attempt>, calls: nat)
    requires OfRun(ss, mvs) && InOrder(tries) && calls <= |tries| && forall k :: 0 <= k < |tries| ==> IsAttempt(mvs, tries[k])
    requires forall k :: 0 <= k < calls - 1 ==> Attempted(mvs, tries, k).Retryable?
    ensures var made := tries[..calls];
            && CommitMoves(mvs, made) <= (if calls == 0 then {} else {tries[calls - 1].to}) && |CommitMoves(mvs, made)| <= 1
            && ActsByCommits(ss, mvs, made) && NothingFollows(mvs, made)
    ensures forall k :: 0 <= k < calls - 1 ==> IsTransient(mvs, tries[k])
  {
    var made := tries[..calls];
    forall k | 0 <= k < |made| - 1 ensures Attempted(mvs, made, k).Retryable? {
      assert Attempted(mvs, made, k) == Attempted(mvs, tries, k);
    }
    forall k | 0 <= k < calls - 1 ensures IsTransient(mvs, tries[k]) {
      RetriedIff(mvs, tries, k);
    }
    AtMostOneCommit(mvs, made);
    RunActsByCommits(ss, mvs, made);
    CommitComesLast(mvs, made);
  }
}
