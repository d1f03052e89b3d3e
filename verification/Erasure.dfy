/**
 All or nothing: a transaction that never commits might as well not have run. Its moves can be
 erased from any run; what is left is a run with the same committed states at every point and
 the same answers to everybody else. Only the identity sequences remember it, by a gap.
 */
module Erasure {
  import opened Options
  import opened Tables
  import opened Interleaving
  import A = Atomic
  import R = Refinement
  import Runs

  /** The transaction a move belongs to. */
  function MoverOf(mv: Move): Option<nat> {
    match mv
    case Tick(_) => None
    case LookupReplays(_, _, _) => None
    case LookupMismatches(_) => None
    case WorkerWrites(_, _) => None
    case SkipIds(_, _, _) => None
    case ReadSeats(_, _) => None
    case ReadHistory(_, _) => None
    case _ => Some(mv.t)
  }

  function Without(s: State, t: nat): State {
    s.(txs := s.txs - {t})
  }

  function Gap(s: State): Move {
    SkipIds(s.nextId, s.nextRefund, s.nextEvent)
  }

  // ---------------------------------------------------------------- moves of the others

  /** The single statements that wait for rows or keys of other transactions. */
  predicate Waits(mv: Move) {
    mv.RunConfirm? || mv.RunRelease? || mv.RunCas? || mv.RunSweep? || mv.RunPrune?
  }

  lemma UpdateStands(s: State, mv: Move, s': State, t: nat)
    requires NextHold(s, mv, s') && (mv.RunCancel? || mv.RunExpire?) && mv.t != t
    ensures NextHold(Without(s, t), mv, Without(s', t))
  {
    assert Without(s', t).txs == Without(s, t).txs[mv.t := s'.txs[mv.t]];
    assert forall i :: RowFree(s, mv.t, i) ==> RowFree(Without(s, t), mv.t, i);
  }

  lemma LockStands(s: State, mv: Move, s': State, t: nat)
    requires NextHold(s, mv, s') && (mv.TakeLock? || mv.ClearKey?) && mv.t != t
    ensures NextHold(Without(s, t), mv, Without(s', t))
  {
    assert Without(s', t).txs == Without(s, t).txs[mv.t := s'.txs[mv.t]];
  }

  lemma PreparingMoveStands(s: State, mv: Move, s': State, t: nat)
    requires NextHold(s, mv, s') && R.Prepares(mv) && mv.t != t
    ensures NextHold(Without(s, t), mv, Without(s', t))
  {
    if mv.RunCancel? || mv.RunExpire? {
      UpdateStands(s, mv, s', t);
    } else if mv.TakeLock? || mv.ClearKey? {
      LockStands(s, mv, s', t);
    } else {
      assert Without(s', t).txs == Without(s, t).txs[mv.t := s'.txs[mv.t]];
    }
  }

  lemma HoldMoveStands(s: State, mv: Move, s': State, t: nat)
    requires NextHold(s, mv, s') && !R.Prepares(mv) && MoverOf(mv) != Some(t)
    ensures NextHold(Without(s, t), mv, Without(s', t))
  {
  }

  lemma WaitingStatementStands(s: State, mv: Move, s': State, t: nat)
    requires NextOther(s, mv, s') && Waits(mv) && mv.t != t
    ensures NextOther(Without(s, t), mv, Without(s', t))
  {
    assert Without(s', t).txs == Without(s, t).txs[mv.t := s'.txs[mv.t]];
  }

  lemma StatementStands(s: State, mv: Move, s': State, t: nat)
    requires NextOther(s, mv, s') && MoverOf(mv).Some? && mv.t != t
    ensures NextOther(Without(s, t), mv, Without(s', t))
  {
    if Waits(mv) {
      WaitingStatementStands(s, mv, s', t);
    }
  }

  /** Every guard on the other transactions only says what they have not done, so it holds without one. */
  lemma MoveStands(s: State, mv: Move, s': State, t: nat)
    requires Next(s, mv, s') && MoverOf(mv) != Some(t)
    ensures Next(Without(s, t), mv, Without(s', t))
  {
    if NextHold(s, mv, s') {
      if R.Prepares(mv) {
        PreparingMoveStands(s, mv, s', t);
      } else {
        HoldMoveStands(s, mv, s', t);
      }
    } else if MoverOf(mv).Some? {
      StatementStands(s, mv, s', t);
    }
  }

  lemma AnswerStands(s: State, mv: Move, s': State, t: nat)
    requires Next(s, mv, s') && MoverOf(mv) != Some(t) && Next(Without(s, t), mv, Without(s', t))
    ensures LabelOf(Without(s, t), mv, Without(s', t)) == LabelOf(s, mv, s')
  {
  }

  // ---------------------------------------------------------------- moves of the erased transaction

  lemma PreparingLeavesAGap(s: State, mv: Move, s': State, t: nat)
    requires NextHold(s, mv, s') && R.Prepares(mv) && mv.t == t
    ensures NextOther(Without(s, t), Gap(s'), Without(s', t))
  {
    assert Without(s', t).txs == Without(s, t).txs;
  }

  lemma HoldMoveLeavesAGap(s: State, mv: Move, s': State, t: nat)
    requires NextHold(s, mv, s') && !R.Prepares(mv) && MoverOf(mv) == Some(t)
    ensures NextOther(Without(s, t), Gap(s'), Without(s', t))
  {
    assert Without(s', t).txs == Without(s, t).txs;
  }

  lemma StatementLeavesAGap(s: State, mv: Move, s': State, t: nat)
    requires NextOther(s, mv, s') && MoverOf(mv) == Some(t) && mv != Commit(t)
    ensures NextOther(Without(s, t), Gap(s'), Without(s', t))
  {
    assert Without(s', t).txs == Without(s, t).txs;
  }

  lemma OwnMoveLeavesAGap(s: State, mv: Move, s': State, t: nat)
    requires Next(s, mv, s') && MoverOf(mv) == Some(t) && mv != Commit(t)
    ensures Next(Without(s, t), Gap(s'), Without(s', t))
  {
    if NextHold(s, mv, s') {
      if R.Prepares(mv) {
        PreparingLeavesAGap(s, mv, s', t);
      } else {
        HoldMoveLeavesAGap(s, mv, s', t);
      }
    } else {
      StatementLeavesAGap(s, mv, s', t);
    }
  }

  // ---------------------------------------------------------------- whole runs

  ghost function StatesWithout(ss: seq<State>, t: nat): (es: seq<State>)
    ensures |es| == |ss| && forall k :: 0 <= k < |ss| ==> es[k] == Without(ss[k], t)
  {
    seq(|ss|, k requires 0 <= k < |ss| => Without(ss[k], t))
  }

  ghost function MovesWithout(ss: seq<State>, mvs: seq<Move>, t: nat): (es: seq<Move>)
    requires |ss| == |mvs| + 1
    ensures |es| == |mvs|
    ensures forall k :: 0 <= k < |mvs| ==> es[k] == if MoverOf(mvs[k]) == Some(t) then Gap(ss[k + 1]) else mvs[k]
  {
    seq(|mvs|, k requires 0 <= k < |mvs| => if MoverOf(mvs[k]) == Some(t) then Gap(ss[k + 1]) else mvs[k])
  }

  lemma ErasedIsARun(ss: seq<State>, mvs: seq<Move>, t: nat)
    requires Runs.IsRun(ss, mvs) && forall k :: 0 <= k < |mvs| ==> mvs[k] != Commit(t)
    ensures Runs.IsRun(StatesWithout(ss, t), MovesWithout(ss, mvs, t))
  {
    var es, nvs := StatesWithout(ss, t), MovesWithout(ss, mvs, t);
    forall k | 0 <= k < |nvs| ensures Next(es[k], nvs[k], es[k + 1]) {
      if MoverOf(mvs[k]) == Some(t) {
        OwnMoveLeavesAGap(ss[k], mvs[k], ss[k + 1], t);
      } else {
        MoveStands(ss[k], mvs[k], ss[k + 1], t);
      }
    }
  }

  /** A transaction that never commits, whatever it read, wrote, locked and was answered, can be erased:
      the rest is a run with the same committed state at every point, and every move of the others
      carries the same answer. */
  lemma UncommittedChangesNothing(ss: seq<State>, mvs: seq<Move>, t: nat)
    requires Runs.IsRun(ss, mvs) && forall k :: 0 <= k < |mvs| ==> mvs[k] != Commit(t)
    ensures Runs.IsRun(StatesWithout(ss, t), MovesWithout(ss, mvs, t))
    ensures Runs.Worlds(StatesWithout(ss, t)) == Runs.Worlds(ss)
    ensures forall k :: 0 <= k < |mvs| && MoverOf(mvs[k]) != Some(t) ==>
              Runs.Labels(StatesWithout(ss, t), MovesWithout(ss, mvs, t))[k] == Runs.Labels(ss, mvs)[k]
  {
    ErasedIsARun(ss, mvs, t);
    var es, nvs := StatesWithout(ss, t), MovesWithout(ss, mvs, t);
    forall k | 0 <= k < |mvs| && MoverOf(mvs[k]) != Some(t) ensures Runs.Labels(es, nvs)[k] == Runs.Labels(ss, mvs)[k] {
      assert Next(es[k], nvs[k], es[k + 1]);
      AnswerStands(ss[k], mvs[k], ss[k + 1], t);
    }
  }
}
