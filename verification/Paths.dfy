/**
 Paths of a transition relation: the states `ss` and the moves `mvs` between them.
 */
module Paths {

  ghost predicate IsPath<S, M>(next: (S, M, S) -> bool, ss: seq<S>, mvs: seq<M>) {
    && |ss| == |mvs| + 1
    && forall k {:trigger next(ss[k], mvs[k], ss[k + 1])} :: 0 <= k < |mvs| ==> next(ss[k], mvs[k], ss[k + 1])
  }

  lemma StepAt<S, M>(next: (S, M, S) -> bool, ss: seq<S>, mvs: seq<M>, k: nat)
    requires IsPath(next, ss, mvs) && k < |mvs|
    ensures next(ss[k], mvs[k], ss[k + 1])
  {
  }

  lemma Extend<S, M>(next: (S, M, S) -> bool, ss: seq<S>, mvs: seq<M>, mv: M, s': S)
    requires IsPath(next, ss, mvs) && IsPath(next, [ss[|mvs|], s'], [mv])
    ensures IsPath(next, ss + [s'], mvs + [mv])
  {
    var us, ovs := ss + [s'], mvs + [mv];
    forall k | 0 <= k < |ovs| ensures next(us[k], ovs[k], us[k + 1]) {
      if k < |mvs| {
        StepAt(next, ss, mvs, k);
      } else {
        StepAt(next, [ss[|mvs|], s'], [mv], 0);
      }
    }
  }

  lemma Chain<S, M>(next: (S, M, S) -> bool, ss: seq<S>, mvs: seq<M>, ts: seq<S>, nvs: seq<M>)
    requires IsPath(next, ss, mvs) && IsPath(next, ts, nvs) && ss[|mvs|] == ts[0]
    ensures IsPath(next, ss + ts[1..], mvs + nvs)
    ensures (ss + ts[1..])[|mvs + nvs|] == ts[|nvs|]
  {
    var us, ovs := ss + ts[1..], mvs + nvs;
    forall k | 0 <= k < |ovs| ensures next(us[k], ovs[k], us[k + 1]) {
      if k < |mvs| {
        StepAt(next, ss, mvs, k);
      } else {
        StepAt(next, ts, nvs, k - |mvs|);
      }
    }
  }

  lemma ThreeSteps<S, M>(next: (S, M, S) -> bool, s: S, mv1: M, s1: S, mv2: M, s2: S, mv3: M, s3: S)
    requires IsPath(next, [s, s1], [mv1]) && IsPath(next, [s1, s2], [mv2]) && IsPath(next, [s2, s3], [mv3])
    ensures IsPath(next, [s, s1, s2, s3], [mv1, mv2, mv3])
  {
    StepAt(next, [s, s1], [mv1], 0);
    StepAt(next, [s1, s2], [mv2], 0);
    StepAt(next, [s2, s3], [mv3], 0);
  }
}
