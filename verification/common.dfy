/** What several components use: absent values, and the distinct values of a list. */
module Common {
  /** A value that may be absent. */
  datatype Option<+T> = None | Some(value: T)

  /** The values worth keeping, each once. */
  function Once<T(==,!new)>(xs: seq<T>, keep: T -> bool): (r: seq<T>)
    ensures forall u :: u in r <==> u in xs && keep(u)
    ensures forall i, j :: 0 <= i < j < |r| ==> r[i] != r[j]
  {
    if xs == [] then []
    else
      var last := xs[|xs| - 1];
      var r := Once(xs[..|xs| - 1], keep);
      if keep(last) && last !in r then r + [last] else r
  }

  /** Where a value first stands. */
  function FirstAt<T(==,!new)>(xs: seq<T>, u: T): (i: nat)
    ensures i <= |xs| && (i < |xs| <==> u in xs)
    ensures i < |xs| ==> xs[i] == u
  {
    if xs == [] || xs[0] == u then 0 else 1 + FirstAt(xs[1..], u)
  }

  /** The values stand in the order in which `xs` first has them. */
  predicate InOrder<T(==,!new)>(xs: seq<T>, r: seq<T>) {
    forall i, j :: 0 <= i < j < |r| ==> FirstAt(xs, r[i]) < FirstAt(xs, r[j])
  }

  lemma {:induction false} FirstAtSnoc<T(!new)>(xs: seq<T>, last: T, u: T)
    ensures FirstAt(xs + [last], u) == if u in xs then FirstAt(xs, u) else if u == last then |xs| else |xs| + 1
    decreases |xs|
  {
    if xs == [] {
      assert xs + [last] == [last];
    } else {
      assert (xs + [last])[1..] == xs[1..] + [last];
      FirstAtSnoc(xs[1..], last, u);
    }
  }

  /** The values kept stand in the order of their first appearance. */
  lemma {:induction false} OnceInOrder<T(!new)>(xs: seq<T>, keep: T -> bool)
    ensures InOrder(xs, Once(xs, keep))
    decreases |xs|
  {
    if xs != [] {
      var front, last := xs[..|xs| - 1], xs[|xs| - 1];
      OnceInOrder(front, keep);
      var r, was := Once(xs, keep), Once(front, keep);
      assert front + [last] == xs;
      forall i, j | 0 <= i < j < |r| ensures FirstAt(xs, r[i]) < FirstAt(xs, r[j]) {
        assert r[i] == was[i];
        assert r[j] == if j < |was| then was[j] else last;
        InOrderSnoc(front, last, keep, was, i, j);
      }
    }
  }

  lemma InOrderSnoc<T(!new)>(front: seq<T>, last: T, keep: T -> bool, was: seq<T>, i: nat, j: nat)
    requires was == Once(front, keep) && i < j <= |was| && (j == |was| ==> keep(last) && last !in was)
    requires InOrder(front, was)
    ensures FirstAt(front + [last], was[i]) < FirstAt(front + [last], if j < |was| then was[j] else last)
  {
    FirstAtSnoc(front, last, was[i]);
    FirstAtSnoc(front, last, if j < |was| then was[j] else last);
    assert was[i] in was;
    if j < |was| { assert was[j] in was; }
  }

  /** Where a state machine is after these events. */
  function RunFrom<S, E>(next: (S, E) -> S, s: S, evs: seq<E>): S
    decreases evs
  {
    if evs == [] then s else RunFrom(next, next(s, evs[0]), evs[1..])
  }

  lemma {:induction false} RunAppend<S, E>(next: (S, E) -> S, s: S, a: seq<E>, b: seq<E>)
    ensures RunFrom(next, s, a + b) == RunFrom(next, RunFrom(next, s, a), b)
    decreases a
  {
    if a == [] {
      assert a + b == b;
    } else {
      assert (a + b)[0] == a[0] && (a + b)[1..] == a[1..] + b;
      RunAppend(next, next(s, a[0]), a[1..], b);
    }
  }

  lemma RunSnoc<S, E>(next: (S, E) -> S, s: S, evs: seq<E>, ev: E)
    ensures RunFrom(next, s, evs + [ev]) == next(RunFrom(next, s, evs), ev)
  {
    RunAppend(next, s, evs, [ev]);
    assert [ev][1..] == [];
  }
}
