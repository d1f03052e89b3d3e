/**
 reconcileOrderedChildren (web/app.js:208-226): bring a container's children into the desired order,
 moving nodes in place. Nodes are compared by identity; a container never holds a node twice.
 */
module Reconcile {
  import opened Options

  type Node = nat

  ghost predicate Distinct(s: seq<Node>) {
    forall i, j :: 0 <= i < j < |s| ==> s[i] != s[j]
  }

  /** The nodes of `s` outside `drop`, in their order. */
  function Keep(s: seq<Node>, drop: set<Node>): seq<Node> {
    if s == [] then [] else (if s[0] in drop then [] else [s[0]]) + Keep(s[1..], drop)
  }

  function Nodes(s: seq<Node>): set<Node> {
    set n | n in s
  }

  function IndexOf(s: seq<Node>, n: Node): (i: nat)
    ensures i <= |s| && n !in s[..i] && (i < |s| ==> s[i] == n)
    ensures i == |s| <==> n !in s
  {
    if s == [] || s[0] == n then 0
    else
      assert s == [s[0]] + s[1..];
      var i := IndexOf(s[1..], n);
      assert s[..i + 1] == [s[0]] + s[1..][..i];
      i + 1
  }

  // ---------------------------------------------------------------- filtering

  lemma {:induction false} KeepNothingDropped(s: seq<Node>)
    ensures Keep(s, {}) == s
  {
    if s != [] {
      KeepNothingDropped(s[1..]);
    }
  }

  lemma {:induction false} KeepMembers(s: seq<Node>, drop: set<Node>, n: Node)
    ensures n in Keep(s, drop) <==> n in s && n !in drop
  {
    if s != [] {
      KeepMembers(s[1..], drop, n);
      assert n in s <==> n == s[0] || n in s[1..];
    }
  }

  lemma {:induction false} KeepTwice(s: seq<Node>, drop: set<Node>, n: Node)
    ensures Keep(Keep(s, drop), {n}) == Keep(s, drop + {n})
  {
    if s != [] {
      KeepTwice(s[1..], drop, n);
      if s[0] in drop {
        assert Keep(s, drop) == Keep(s[1..], drop);
      } else {
        assert Keep(s, drop)[1..] == Keep(s[1..], drop);
      }
    }
  }

  lemma {:induction false} KeepAll(s: seq<Node>, drop: set<Node>)
    requires forall n :: n in s ==> n !in drop
    ensures Keep(s, drop) == s
  {
    if s != [] {
      KeepAll(s[1..], drop);
    }
  }

  lemma {:induction false} KeepConcat(a: seq<Node>, b: seq<Node>, drop: set<Node>)
    ensures Keep(a + b, drop) == Keep(a, drop) + Keep(b, drop)
  {
    if a == [] {
      assert a + b == b;
    } else {
      assert (a + b)[1..] == a[1..] + b;
      KeepConcat(a[1..], b, drop);
    }
  }

  lemma {:induction false} KeepDistinct(s: seq<Node>, drop: set<Node>)
    requires Distinct(s)
    ensures Distinct(Keep(s, drop))
  {
    if s != [] {
      KeepDistinct(s[1..], drop);
      KeepMembers(s[1..], drop, s[0]);
    }
  }

  /** Dropping the first node of a distinct list leaves its tail. */
  lemma KeepTail(s: seq<Node>)
    requires s != [] && Distinct(s)
    ensures Keep(s, {s[0]}) == s[1..]
  {
    KeepAll(s[1..], {s[0]});
  }

  function HeadOf(s: seq<Node>): Option<Node> {
    if s == [] then None else Some(s[0])
  }

  // ---------------------------------------------------------------- one turn of the loop

  /** What is left after one more desired node, and what it cannot contain. */
  lemma NextRest(start: seq<Node>, desired: seq<Node>, k: nat)
    requires Distinct(start) && k < |desired|
    ensures var rest := Keep(start, Nodes(desired[..k]));
            && Keep(start, Nodes(desired[..k + 1])) == Keep(rest, {desired[k]})
            && Distinct(rest) && forall n :: n in rest ==> n !in desired[..k]
  {
    KeepTwice(start, Nodes(desired[..k]), desired[k]);
    assert desired[..k + 1] == desired[..k] + [desired[k]];
    assert Nodes(desired[..k + 1]) == Nodes(desired[..k]) + {desired[k]};
    KeepDistinct(start, Nodes(desired[..k]));
    forall n | n in Keep(start, Nodes(desired[..k])) ensures n !in desired[..k] {
      KeepMembers(start, Nodes(desired[..k]), n);
    }
  }

  lemma {:induction false} IndexAfter(a: seq<Node>, b: seq<Node>)
    requires b != [] && b[0] !in a
    ensures IndexOf(a + b, b[0]) == |a|
  {
    if a == [] {
      assert a + b == b;
    } else {
      assert (a + b)[1..] == a[1..] + b;
      IndexAfter(a[1..], b);
    }
  }

  lemma Regroup(a: seq<Node>, b: seq<Node>)
    requires b != []
    ensures a + b == (a + [b[0]]) + b[1..]
  {
  }

  /** The cursor is at the desired node: it moves on and nothing else does. */
  lemma CursorMoves(done: seq<Node>, rest: seq<Node>)
    requires Distinct(rest) && rest != [] && rest[0] !in done
    ensures done + rest == (done + [rest[0]]) + Keep(rest, {rest[0]})
    ensures IndexOf(done + rest, rest[0]) == |done|
    ensures Keep(rest, {rest[0]}) == rest[1..]
  {
    assert Keep(rest, {rest[0]}) == rest[1..] by {
      KeepTail(rest);
    }
    assert IndexOf(done + rest, rest[0]) == |done| by {
      IndexAfter(done, rest);
    }
    Regroup(done, rest);
  }

  /** Taking a node out of the part still to do does not disturb the part done, nor the cursor. */
  lemma TakeOut(done: seq<Node>, rest: seq<Node>, node: Node)
    requires node !in done && HeadOf(rest) != Some(node)
    ensures Keep(done + rest, {node}) == done + Keep(rest, {node})
    ensures HeadOf(Keep(rest, {node})) == HeadOf(rest)
  {
    KeepConcat(done, rest, {node});
    KeepAll(done, {node});
  }

  lemma PutBack(done: seq<Node>, rest: seq<Node>, node: Node)
    ensures (done + rest)[..|done|] + [node] + (done + rest)[|done|..] == (done + [node]) + rest
  {
    assert (done + rest)[..|done|] == done && (done + rest)[|done|..] == rest;
  }

  /** The cursor is elsewhere: taking the node out and putting it before the cursor puts it in place. */
  lemma InsertMoves(done: seq<Node>, node: Node, rest: seq<Node>)
    requires node !in done && HeadOf(rest) != Some(node)
    requires forall n :: n in rest ==> n !in done
    ensures var full, rest' := Keep(done + rest, {node}), Keep(rest, {node});
            && HeadOf(rest') == HeadOf(rest)
            && |done| <= |full|
            && (if rest != [] then IndexOf(full, rest[0]) == |done| else |full| == |done|)
            && full[..|done|] + [node] + full[|done|..] == (done + [node]) + rest'
  {
    var rest' := Keep(rest, {node});
    TakeOut(done, rest, node);
    PutBack(done, rest', node);
    if rest != [] {
      assert rest'[0] == rest[0] && rest[0] !in done;
      IndexAfter(done, rest');
    }
  }

  // ---------------------------------------------------------------- the loop after k turns

  /** The children not placed yet. */
  function Rest(start: seq<Node>, desired: seq<Node>, k: nat): seq<Node>
    requires k <= |desired|
  {
    Keep(start, Nodes(desired[..k]))
  }

  function Arranged(start: seq<Node>, desired: seq<Node>, k: nat): seq<Node>
    requires k <= |desired|
  {
    desired[..k] + Rest(start, desired, k)
  }

  function Following(s: seq<Node>, n: Node): Option<Node> {
    var i := IndexOf(s, n);
    if i + 1 < |s| then Some(s[i + 1]) else None
  }

  /** The DOM's insertBefore: the node leaves its old place and goes before `ref`, or to the end. */
  function Inserted(s: seq<Node>, n: Node, ref: Option<Node>): seq<Node> {
    var rest := Keep(s, {n});
    var i := if ref.Some? then IndexOf(rest, ref.value) else |rest|;
    rest[..i] + [n] + rest[i..]
  }

  lemma CursorTurn(start: seq<Node>, desired: seq<Node>, k: nat)
    requires Distinct(start) && Distinct(desired) && k < |desired|
    requires HeadOf(Rest(start, desired, k)) == Some(desired[k])
    ensures Arranged(start, desired, k + 1) == Arranged(start, desired, k)
    ensures HeadOf(Rest(start, desired, k + 1)) == Following(Arranged(start, desired, k), desired[k])
  {
    NextRest(start, desired, k);
    assert desired[..k + 1] == desired[..k] + [desired[k]];
    CursorMoves(desired[..k], Rest(start, desired, k));
  }

  lemma InsertTurn(start: seq<Node>, desired: seq<Node>, k: nat)
    requires Distinct(start) && Distinct(desired) && k < |desired|
    requires HeadOf(Rest(start, desired, k)) != Some(desired[k])
    ensures Arranged(start, desired, k + 1) ==
            Inserted(Arranged(start, desired, k), desired[k], HeadOf(Rest(start, desired, k)))
    ensures HeadOf(Rest(start, desired, k + 1)) == HeadOf(Rest(start, desired, k))
  {
    NextRest(start, desired, k);
    assert desired[..k + 1] == desired[..k] + [desired[k]];
    InsertMoves(desired[..k], desired[k], Rest(start, desired, k));
  }

  /** While the desired nodes are a prefix of the original children, the cursor is where it should be. */
  lemma PrefixCursor(start: seq<Node>, desired: seq<Node>, k: nat)
    requires Distinct(start) && k < |desired| && desired <= start
    ensures HeadOf(Rest(start, desired, k)) == Some(desired[k])
  {
    var drop := Nodes(desired[..k]);
    assert start == desired[..k] + start[k..];
    KeepConcat(desired[..k], start[k..], drop);
    DropAll(desired[..k], drop);
    KeepAll(start[k..], drop);
  }

  lemma {:induction false} DropAll(s: seq<Node>, drop: set<Node>)
    requires forall n :: n in s ==> n in drop
    ensures Keep(s, drop) == []
  {
    if s != [] {
      DropAll(s[1..], drop);
    }
  }

  // ---------------------------------------------------------------- the container

  class Container {
    var children: seq<Node>
    var insertions: nat

    constructor (children: seq<Node>)
      ensures this.children == children && insertions == 0
    {
      this.children, insertions := children, 0;
    }

    function FirstChild(): Option<Node>
      reads this
    {
      HeadOf(children)
    }

    function NextSibling(n: Node): Option<Node>
      reads this
    {
      Following(children, n)
    }

    method InsertBefore(n: Node, ref: Option<Node>)
      requires ref.Some? ==> ref.value in children && ref.value != n
      modifies this
      ensures children == Inserted(old(children), n, ref)
      ensures insertions == old(insertions) + 1
    {
      children, insertions := Inserted(children, n, ref), insertions + 1;
    }

    /** The loop of reconcileOrderedChildren. */
    method Reconcile(desired: seq<Node>)
      requires Distinct(children) && Distinct(desired)
      modifies this
      ensures children == desired + Keep(old(children), Nodes(desired))
      ensures desired <= old(children) ==> insertions == old(insertions)
    {
      ghost var start := children;
      if |desired| > 0 && children == [] {
        children := desired;
        insertions := insertions + 1;
        return;
      }
      var cursor := FirstChild();
      KeepNothingDropped(children);
      assert Nodes(desired[..0]) == {};
      var k := 0;
      while k < |desired|
        invariant 0 <= k <= |desired|
        invariant children == Arranged(start, desired, k)
        invariant cursor == HeadOf(Rest(start, desired, k))
        invariant desired <= start ==> insertions == old(insertions)
      {
        var node := desired[k];
        if cursor == Some(node) {
          CursorTurn(start, desired, k);
          cursor := NextSibling(node);
        } else {
          InsertTurn(start, desired, k);
          if desired <= start {
            PrefixCursor(start, desired, k);
          }
          InsertBefore(node, cursor);
        }
        k := k + 1;
      }
      assert desired[..k] == desired;
    }
  }
}
