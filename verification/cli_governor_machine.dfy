/**
 The machine-wide concurrency governor of prospector/cli_governor.py, flock path: threads of many
 processes, one kernel lock per slot file, one stack per thread. Every event is one action of one
 thread, or the death of a thread or of a process.
 */
module GovernorMachine {
  import opened Common

  /**
   `hand` is locked but not yet on the stack; `letting` is off the stack but not yet unlocked;
   `leaked` is what a thread held when it ended, still open in its process.
   */
  datatype Thread = Thread(process: nat, limit: nat, stack: seq<nat>, hand: Option<nat>, letting: Option<nat>,
      leaked: seq<nat>)

  datatype State = State(locks: map<nat, nat>, ts: seq<Thread>)

  datatype Event =
    | Probe(t: nat, slot: nat, openable: bool)
    | Push(t: nat)
    | Pop(t: nat)
    | Unlock(t: nat)
    | End(t: nat)
    | Crash(process: nat)

  function Seq(o: Option<nat>): seq<nat> { if o.Some? then [o.value] else [] }

  /** Every slot whose descriptor this thread opened and nobody closed. */
  function Owned(t: Thread): seq<nat> { t.stack + Seq(t.hand) + Seq(t.letting) + t.leaked }

  predicate Between(t: Thread) { t.hand.None? && t.letting.None? }

  function Cleared(t: Thread): Thread { t.(stack := [], hand := None, letting := None, leaked := []) }

  function Next(s: State, ev: Event): State {
    match ev
    case Crash(p) =>
      State(map i | i in s.locks && !(s.locks[i] < |s.ts| && s.ts[s.locks[i]].process == p) :: s.locks[i],
            seq(|s.ts|, i requires 0 <= i < |s.ts| => if s.ts[i].process == p then Cleared(s.ts[i]) else s.ts[i]))
    case Probe(t, i, openable) =>
      if t < |s.ts| && Between(s.ts[t]) && i < s.ts[t].limit && openable && i !in s.locks
      then State(s.locks[i := t], s.ts[t := s.ts[t].(hand := Some(i))])
      else s
    case Push(t) =>
      if t < |s.ts| && s.ts[t].hand.Some?
      then s.(ts := s.ts[t := s.ts[t].(stack := s.ts[t].stack + [s.ts[t].hand.value], hand := None)])
      else s
    case Pop(t) =>
      if t < |s.ts| && Between(s.ts[t]) && s.ts[t].stack != []
      then s.(ts := s.ts[t := s.ts[t].(stack := s.ts[t].stack[..|s.ts[t].stack| - 1],
          letting := Some(s.ts[t].stack[|s.ts[t].stack| - 1]))])
      else s
    case Unlock(t) =>
      if t < |s.ts| && s.ts[t].letting.Some?
      then State(s.locks - {s.ts[t].letting.value}, s.ts[t := s.ts[t].(letting := None)])
      else s
    case End(t) =>
      if t < |s.ts| then s.(ts := s.ts[t := Cleared(s.ts[t]).(leaked := Owned(s.ts[t]))]) else s
  }

  function RunAll(s: State, evs: seq<Event>): State { RunFrom(Next, s, evs) }

  /** Nothing locked, nothing held. */
  predicate Init(s: State) {
    s.locks == map[] && forall t :: 0 <= t < |s.ts| ==> Owned(s.ts[t]) == []
  }

  predicate Distinct(q: seq<nat>) {
    forall i, j :: 0 <= i < j < |q| ==> q[i] != q[j]
  }

  /** The kernel's lock table, read from one thread's side. */
  ghost predicate ThreadOk(s: State, t: nat)
    requires t < |s.ts|
  {
    && Distinct(Owned(s.ts[t]))
    && (forall i :: i in Owned(s.ts[t]) ==> i < s.ts[t].limit)
    && (forall i :: i in Owned(s.ts[t]) <==> i in s.locks && s.locks[i] == t)
  }

  ghost predicate Inv(s: State) {
    && (forall i :: i in s.locks ==> s.locks[i] < |s.ts|)
    && (forall t :: 0 <= t < |s.ts| ==> ThreadOk(s, t))
  }

  lemma StepKeepsInv(s: State, ev: Event)
    requires Inv(s)
    ensures Inv(Next(s, ev))
  {
    forall t | 0 <= t < |s.ts| ensures ThreadOk(Next(s, ev), t) {
      ThreadStaysOk(s, ev, t);
    }
  }

  lemma ThreadStaysOk(s: State, ev: Event, t: nat)
    requires Inv(s) && t < |s.ts|
    ensures ThreadOk(Next(s, ev), t)
  {
    var s' := Next(s, ev);
    assert ThreadOk(s, t);
    match ev
    case Pop(u) => if t == u && s' != s { OwnedAfterPop(s.ts[t], s'.ts[t]); }
    case Push(u) => if t == u && s' != s { OwnedAfterPush(s.ts[t], s'.ts[t]); }
    case Probe(u, i, _) => if s' != s { OwnedAfterProbe(s, s', u, i, t); }
    case Unlock(u) => if s' != s { OwnedAfterUnlock(s, s', u, t); }
    case End(u) => if t == u { assert Owned(s'.ts[t]) == Owned(s.ts[t]); }
    case Crash(p) => if s.ts[t].process != p { assert Owned(s'.ts[t]) == Owned(s.ts[t]); }
  }

  lemma OwnedAfterPush(a: Thread, b: Thread)
    requires a.hand.Some? && b == a.(stack := a.stack + [a.hand.value], hand := None)
    ensures Owned(b) == Owned(a)
  {
  }

  lemma OwnedAfterPop(a: Thread, b: Thread)
    requires Between(a) && a.stack != []
    requires b == a.(stack := a.stack[..|a.stack| - 1], letting := Some(a.stack[|a.stack| - 1]))
    ensures Owned(b) == Owned(a)
  {
    assert a.stack == a.stack[..|a.stack| - 1] + [a.stack[|a.stack| - 1]];
  }

  lemma OwnedAfterProbe(s: State, s': State, u: nat, i: nat, t: nat)
    requires Inv(s) && u < |s.ts| && Between(s.ts[u]) && i < s.ts[u].limit && i !in s.locks
    requires s' == State(s.locks[i := u], s.ts[u := s.ts[u].(hand := Some(i))]) && t < |s.ts|
    ensures ThreadOk(s', t)
  {
    assert ThreadOk(s, t);
    if t == u {
      assert Owned(s.ts[t]) == s.ts[t].stack + s.ts[t].leaked;
      assert Owned(s'.ts[t]) == s.ts[t].stack + [i] + s.ts[t].leaked;
      InsertedOne(s.ts[t].stack, i, s.ts[t].leaked);
    }
  }

  lemma InsertedOne(a: seq<nat>, i: nat, b: seq<nat>)
    ensures forall x :: x in a + [i] + b <==> x == i || x in a + b
    ensures Distinct(a + b) && i !in a + b ==> Distinct(a + [i] + b)
    ensures Distinct(a + [i] + b) ==> Distinct(a + b) && i !in a + b
  {
    var long, short := a + [i] + b, a + b;
    assert forall k :: 0 <= k < |short| ==> short[k] == long[if k < |a| then k else k + 1];
    assert forall k :: 0 <= k < |long| && k != |a| ==> long[k] == short[if k < |a| then k else k - 1];
    assert long[|a|] == i;
  }

  lemma OwnedAfterUnlock(s: State, s': State, u: nat, t: nat)
    requires Inv(s) && u < |s.ts| && s.ts[u].letting.Some? && t < |s.ts|
    requires s' == State(s.locks - {s.ts[u].letting.value}, s.ts[u := s.ts[u].(letting := None)])
    ensures ThreadOk(s', t)
  {
    assert ThreadOk(s, t) && ThreadOk(s, u);
    var a, i, b := s.ts[u].stack + Seq(s.ts[u].hand), s.ts[u].letting.value, s.ts[u].leaked;
    assert Owned(s.ts[u]) == a + [i] + b;
    InsertedOne(a, i, b);
    if t == u { assert Owned(s'.ts[t]) == a + b; }
  }

  lemma {:induction false} RunKeepsInv(s: State, evs: seq<Event>)
    requires Inv(s)
    ensures Inv(RunAll(s, evs))
    decreases evs
  {
    if evs != [] {
      StepKeepsInv(s, evs[0]);
      RunKeepsInv(Next(s, evs[0]), evs[1..]);
    }
  }

  // ---- main results ------------------------------------------------------------------------

  /** Between actions, with no thread ended while holding: what the stacks hold is all a thread owns. */
  predicate Settled(s: State) {
    forall t :: 0 <= t < |s.ts| ==> Between(s.ts[t]) && s.ts[t].leaked == []
  }

  /** No slot is on two threads' stacks or twice on one, and every held slot is locked by its holder. */
  ghost predicate Exclusive(s: State) {
    && (forall t :: 0 <= t < |s.ts| ==> Distinct(s.ts[t].stack))
    && (forall t, i :: 0 <= t < |s.ts| && i in s.ts[t].stack ==> i in s.locks && s.locks[i] == t)
  }

  ghost predicate HeldBySomebody(s: State, i: nat) {
    exists t :: 0 <= t < |s.ts| && i in s.ts[t].stack
  }

  lemma StackIsOwned(t: Thread)
    ensures forall i :: i in t.stack ==> i in Owned(t)
    ensures Distinct(Owned(t)) ==> Distinct(t.stack)
    ensures Between(t) && t.leaked == [] ==> Owned(t) == t.stack
  {
    assert forall k :: 0 <= k < |t.stack| ==> t.stack[k] == Owned(t)[k];
  }

  lemma InvIsExclusive(s: State)
    requires Inv(s)
    ensures Exclusive(s)
  {
    forall t | 0 <= t < |s.ts|
      ensures Distinct(s.ts[t].stack) && forall i :: i in s.ts[t].stack ==> i in s.locks && s.locks[i] == t
    {
      assert ThreadOk(s, t);
      StackIsOwned(s.ts[t]);
    }
  }

  /** A slot a thread owns beside its stack is on nobody's stack. */
  lemma OwnedBesideStack(s: State, t: nat) returns (i: nat)
    requires Inv(s) && t < |s.ts| && !(Between(s.ts[t]) && s.ts[t].leaked == [])
    ensures i in s.locks && !HeldBySomebody(s, i)
  {
    var th := s.ts[t];
    var k := |th.stack|;
    assert ThreadOk(s, t);
    i := Owned(th)[k];
    assert forall j :: 0 <= j < k ==> th.stack[j] == Owned(th)[j];
    forall u | 0 <= u < |s.ts| && i in s.ts[u].stack ensures false {
      assert ThreadOk(s, u);
      StackIsOwned(s.ts[u]);
    }
  }

  /** The held slots are exactly the locked ones. */
  ghost predicate Exact(s: State) { forall i :: i in s.locks <==> HeldBySomebody(s, i) }

  lemma ExactIffSettled(s: State)
    requires Inv(s)
    ensures Exact(s) <==> Settled(s)
  {
    InvIsExclusive(s);
    if Settled(s) {
      forall i | i in s.locks ensures HeldBySomebody(s, i) {
        var t := s.locks[i];
        assert ThreadOk(s, t);
        StackIsOwned(s.ts[t]);
      }
    } else {
      var t :| 0 <= t < |s.ts| && !(Between(s.ts[t]) && s.ts[t].leaked == []);
      var i := OwnedBesideStack(s, t);
    }
  }

  /**
   Main result: in every interleaving of probes, releases, thread ends and crashes the held slots are
   exclusive, and they are exactly the locked ones if and only if nothing is in flight or leaked.
   */
  lemma SlotsAreExclusive(s: State, evs: seq<Event>)
    requires Init(s)
    ensures Exclusive(RunAll(s, evs))
    ensures Exact(RunAll(s, evs)) <==> Settled(RunAll(s, evs))
  {
    InitIsInv(s);
    RunKeepsInv(s, evs);
    InvIsExclusive(RunAll(s, evs));
    ExactIffSettled(RunAll(s, evs));
  }

  predicate Spared(evs: seq<Event>, process: nat) { forall k :: 0 <= k < |evs| ==> evs[k] != Crash(process) }

  lemma {:induction false} LeakLasts(s: State, evs: seq<Event>, t: nat, i: nat)
    requires t < |s.ts| && i in s.ts[t].leaked && Spared(evs, s.ts[t].process)
    ensures t < |RunAll(s, evs).ts| && i in RunAll(s, evs).ts[t].leaked
    decreases |evs|
  {
    if evs != [] {
      assert evs[0] != Crash(s.ts[t].process);
      LeakLasts(Next(s, evs[0]), evs[1..], t, i);
    }
  }

  lemma LeakedIsNotHeld(s: State, t: nat, i: nat)
    requires Inv(s) && t < |s.ts| && i in s.ts[t].leaked
    ensures i in s.locks && !HeldBySomebody(s, i)
  {
    var th := s.ts[t];
    var front := th.stack + Seq(th.hand) + Seq(th.letting);
    var k :| 0 <= k < |th.leaked| && th.leaked[k] == i;
    assert ThreadOk(s, t) && Owned(th)[|front| + k] == i;
    assert forall j :: 0 <= j < |th.stack| ==> th.stack[j] == Owned(th)[j];
    forall u | 0 <= u < |s.ts| && i in s.ts[u].stack ensures false {
      assert ThreadOk(s, u);
      StackIsOwned(s.ts[u]);
    }
  }

  /**
   A slot that a thread owned when it ended stays locked and is nobody's, whatever happens next, as
   long as the process lives.
   */
  lemma EndedThreadKeepsItsSlot(s: State, evs: seq<Event>, t: nat, i: nat, more: seq<Event>)
    requires Init(s) && t < |RunAll(s, evs).ts| && i in Owned(RunAll(s, evs).ts[t])
    requires Spared(more, RunAll(s, evs).ts[t].process)
    ensures var after := RunAll(s, evs + [End(t)] + more); i in after.locks && !HeldBySomebody(after, i)
  {
    InitIsInv(s);
    RunSnoc(Next, s, evs, End(t));
    RunAppend(Next, s, evs + [End(t)], more);
    RunKeepsInv(s, evs + [End(t)] + more);
    LeakLasts(Next(RunAll(s, evs), End(t)), more, t, i);
    LeakedIsNotHeld(RunAll(s, evs + [End(t)] + more), t, i);
  }

  lemma InitIsInv(s: State)
    requires Init(s)
    ensures Inv(s)
  {
    assert forall t :: 0 <= t < |s.ts| ==> ThreadOk(s, t);
  }

  function Range(n: nat): (r: set<nat>)
    ensures forall i: nat :: i in r <==> i < n
  {
    if n == 0 then {} else Range(n - 1) + {n - 1}
  }

  lemma {:induction false} RangeSize(n: nat)
    ensures |Range(n)| == n
  {
    if n > 0 {
      RangeSize(n - 1);
    }
  }

  lemma {:induction false} SubsetSize<T>(a: set<T>, b: set<T>)
    requires a <= b
    ensures |a| <= |b|
    decreases b
  {
    if a != {} {
      var x :| x in a;
      SubsetSize(a - {x}, b - {x});
    }
  }

  /** The ceiling: governors of any sizes sharing one directory never lock more slots than the largest of them. */
  lemma CeilingHolds(s: State, evs: seq<Event>, most: nat)
    requires Init(s)
    requires forall t :: 0 <= t < |RunAll(s, evs).ts| ==> RunAll(s, evs).ts[t].limit <= most
    ensures |RunAll(s, evs).locks| <= most
  {
    InitIsInv(s);
    RunKeepsInv(s, evs);
    var m := RunAll(s, evs);
    forall i | i in m.locks.Keys ensures i in Range(most) {
      assert ThreadOk(m, m.locks[i]);
    }
    SubsetSize(m.locks.Keys, Range(most));
    RangeSize(most);
    assert |m.locks| == |m.locks.Keys|;
  }

  /** `current_slot`: the top of the thread's stack. */
  function CurrentSlot(t: Thread): Option<nat> {
    if t.stack == [] then None else Some(t.stack[|t.stack| - 1])
  }

  /** While `current_slot` answers i, no other thread of any process owns slot i in any way. */
  lemma CurrentSlotIsExclusive(s: State, evs: seq<Event>, t: nat, u: nat)
    requires Init(s) && t < |RunAll(s, evs).ts| && u < |RunAll(s, evs).ts| && t != u
    requires CurrentSlot(RunAll(s, evs).ts[t]).Some?
    ensures CurrentSlot(RunAll(s, evs).ts[t]).value !in Owned(RunAll(s, evs).ts[u])
  {
    InitIsInv(s);
    RunKeepsInv(s, evs);
    var m := RunAll(s, evs);
    assert ThreadOk(m, t) && ThreadOk(m, u);
    assert CurrentSlot(m.ts[t]).value in Owned(m.ts[t]);
  }

  /**
   A crash frees exactly the slots of its own threads, leaked ones included; an ended thread's slots
   stay locked until then.
   */
  lemma CrashFreesItsOwn(s: State, evs: seq<Event>, p: nat, i: nat)
    requires Init(s)
    ensures var m := RunAll(s, evs);
            i in Next(m, Crash(p)).locks <==>
            exists t :: 0 <= t < |m.ts| && m.ts[t].process != p && i in Owned(m.ts[t])
  {
    InitIsInv(s);
    RunKeepsInv(s, evs);
    var m := RunAll(s, evs);
    var m' := Next(m, Crash(p));
    if i in m'.locks {
      var t := m.locks[i];
      assert ThreadOk(m, t) && i in Owned(m.ts[t]) && m.ts[t].process != p;
    }
    forall t | 0 <= t < |m.ts| && m.ts[t].process != p && i in Owned(m.ts[t]) ensures i in m'.locks {
      assert ThreadOk(m, t);
    }
  }
}
