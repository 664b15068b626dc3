/**
 The governor's in-process fallback: a counting semaphore plus a list of free indices, updated in
 separate steps by any number of threads (prospector/cli_governor.py, the `_fallback` branches).
 */
module GovernorFallback {
  import opened Common

  /**
   Where a thread stands inside `acquire` or `release`. `Returned` has given its index back but not
   yet its permit.
   */
  datatype Pc = Idle | Permitted | Popped(idx: nat) | Unstacked(idx: nat) | Returned

  datatype Thread = Thread(pc: Pc, stack: seq<nat>)

  datatype State = State(permits: nat, free: seq<nat>, ts: seq<Thread>)

  datatype Event =
    | Take(t: nat)
    | PopFree(t: nat)
    | PushStack(t: nat)
    | PopStack(t: nat)
    | AppendFree(t: nat)
    | Give(t: nat)

  function Last(q: seq<nat>): nat
    requires q != []
  {
    q[|q| - 1]
  }

  /**
   `PopStack` on an empty stack is a `release` without an `acquire`: it goes straight to the
   semaphore. `PopFree` on an empty list forgives with index 0.
   */
  function Next(s: State, ev: Event): State {
    if ev.t >= |s.ts| then s
    else
      var th := s.ts[ev.t];
      match ev
      case Take(t) =>
        if th.pc.Idle? && s.permits > 0 then State(s.permits - 1, s.free, s.ts[t := th.(pc := Permitted)]) else s
      case PopFree(t) =>
        if !th.pc.Permitted? then s
        else if s.free == [] then s.(ts := s.ts[t := th.(pc := Popped(0))])
        else State(s.permits, s.free[..|s.free| - 1], s.ts[t := th.(pc := Popped(Last(s.free)))])
      case PushStack(t) =>
        if th.pc.Popped? then s.(ts := s.ts[t := Thread(Idle, th.stack + [th.pc.idx])]) else s
      case PopStack(t) =>
        if !th.pc.Idle? then s
        else if th.stack == [] then s.(ts := s.ts[t := th.(pc := Returned)])
        else s.(ts := s.ts[t := Thread(Unstacked(Last(th.stack)), th.stack[..|th.stack| - 1])])
      case AppendFree(t) =>
        if th.pc.Unstacked? then State(s.permits, s.free + [th.pc.idx], s.ts[t := th.(pc := Returned)]) else s
      case Give(t) =>
        if th.pc.Returned? then State(s.permits + 1, s.free, s.ts[t := th.(pc := Idle)]) else s
  }

  function RunAll(s: State, evs: seq<Event>): State { RunFrom(Next, s, evs) }

  /** A `release` by a thread that holds nothing. */
  predicate Unmatched(s: State, ev: Event) {
    ev.PopStack? && ev.t < |s.ts| && s.ts[ev.t].pc.Idle? && s.ts[ev.t].stack == []
  }

  predicate MatchedRun(s: State, evs: seq<Event>)
    decreases evs
  {
    evs == [] || (!Unmatched(s, evs[0]) && MatchedRun(Next(s, evs[0]), evs[1..]))
  }

  // ---- conservation ------------------------------------------------------------------------

  /** How often a thread keeps index `x`: on its stack, or in hand on the way in or out. */
  function Own(t: Thread, x: nat): nat {
    multiset(t.stack)[x] + if (t.pc.Popped? || t.pc.Unstacked?) && t.pc.idx == x then 1 else 0
  }

  function Held(ts: seq<Thread>, x: nat): nat {
    if ts == [] then 0 else Held(ts[..|ts| - 1], x) + Own(ts[|ts| - 1], x)
  }

  function Load(t: Thread): nat {
    |t.stack| + if t.pc.Popped? || t.pc.Unstacked? then 1 else 0
  }

  function Total(ts: seq<Thread>): nat {
    if ts == [] then 0 else Total(ts[..|ts| - 1]) + Load(ts[|ts| - 1])
  }

  /** Between the permit and the index: between acquire and pop, or between append and release. */
  function Flag(t: Thread): nat { if t.pc.Permitted? || t.pc.Returned? then 1 else 0 }

  function Between(ts: seq<Thread>): nat {
    if ts == [] then 0 else Between(ts[..|ts| - 1]) + Flag(ts[|ts| - 1])
  }

  /** Free indices match permits; n indices in all; and each is free once or in exactly one thread's keeping. */
  ghost predicate Conserved(s: State, n: nat) {
    && |s.free| == s.permits + Between(s.ts)
    && |s.free| + Total(s.ts) == n
    && forall x :: Singly(s, n, x)
  }

  predicate Singly(s: State, n: nat, x: nat) {
    multiset(s.free)[x] + Held(s.ts, x) == if x < n then 1 else 0
  }

  lemma {:induction false} UpdateCounts(ts: seq<Thread>, i: nat, t: Thread)
    requires i < |ts|
    ensures Between(ts[i := t]) + Flag(ts[i]) == Between(ts) + Flag(t)
    ensures Total(ts[i := t]) + Load(ts[i]) == Total(ts) + Load(t)
    decreases |ts|
  {
    var k := |ts| - 1;
    if i == k {
      assert ts[i := t][..k] == ts[..k];
    } else {
      UpdateCounts(ts[..k], i, t);
      assert ts[i := t][..k] == ts[..k][i := t];
    }
  }

  lemma {:induction false} UpdateHeld(ts: seq<Thread>, i: nat, t: Thread, x: nat)
    requires i < |ts|
    ensures Held(ts[i := t], x) + Own(ts[i], x) == Held(ts, x) + Own(t, x)
    decreases |ts|
  {
    var k := |ts| - 1;
    if i == k {
      assert ts[i := t][..k] == ts[..k];
    } else {
      UpdateHeld(ts[..k], i, t, x);
      assert ts[i := t][..k] == ts[..k][i := t];
    }
  }

  lemma {:induction false} BetweenCounts(ts: seq<Thread>, i: nat)
    requires i < |ts|
    ensures Flag(ts[i]) <= Between(ts)
    decreases |ts|
  {
    if i < |ts| - 1 { BetweenCounts(ts[..|ts| - 1], i); }
  }

  lemma LastOf(q: seq<nat>, x: nat)
    requires q != []
    ensures multiset(q)[x] == multiset(q[..|q| - 1])[x] + if Last(q) == x then 1 else 0
  {
    assert q == q[..|q| - 1] + [Last(q)];
  }

  lemma PopFreeMovesOnce(s: State, t: nat, x: nat)
    requires t < |s.ts| && s.ts[t].pc.Permitted? && s.free != []
    ensures multiset(Next(s, PopFree(t)).free)[x] + Own(Next(s, PopFree(t)).ts[t], x)
              == multiset(s.free)[x] + Own(s.ts[t], x)
  {
    LastOf(s.free, x);
    assert Next(s, PopFree(t)).ts[t] == s.ts[t].(pc := Popped(Last(s.free)));
  }

  lemma PushMovesOnce(th: Thread, x: nat)
    requires th.pc.Popped?
    ensures Own(Thread(Idle, th.stack + [th.pc.idx]), x) == Own(th, x)
  {
    LastOf(th.stack + [th.pc.idx], x);
    assert (th.stack + [th.pc.idx])[..|th.stack|] == th.stack;
  }

  lemma PopMovesOnce(th: Thread, x: nat)
    requires th.pc.Idle? && th.stack != []
    ensures Own(Thread(Unstacked(Last(th.stack)), th.stack[..|th.stack| - 1]), x) == Own(th, x)
  {
    LastOf(th.stack, x);
  }

  lemma AppendMovesOnce(s: State, t: nat, x: nat)
    requires t < |s.ts| && s.ts[t].pc.Unstacked?
    ensures multiset(Next(s, AppendFree(t)).free)[x] + Own(Next(s, AppendFree(t)).ts[t], x)
              == multiset(s.free)[x] + Own(s.ts[t], x)
  {
    var free := s.free + [s.ts[t].pc.idx];
    LastOf(free, x);
    assert free[..|s.free|] == s.free;
    assert Next(s, AppendFree(t)).ts[t] == s.ts[t].(pc := Returned);
  }

  lemma PushedMovesOnce(s: State, t: nat, x: nat)
    requires t < |s.ts| && s.ts[t].pc.Popped?
    ensures var n := Next(s, PushStack(t)); n.free == s.free && Own(n.ts[t], x) == Own(s.ts[t], x)
  {
    PushMovesOnce(s.ts[t], x);
  }

  lemma PoppedMovesOnce(s: State, t: nat, x: nat)
    requires t < |s.ts| && s.ts[t].pc.Idle? && s.ts[t].stack != []
    ensures var n := Next(s, PopStack(t)); n.free == s.free && Own(n.ts[t], x) == Own(s.ts[t], x)
  {
    PopMovesOnce(s.ts[t], x);
  }

  /** The other steps move no index. */
  lemma MovesNone(s: State, ev: Event, x: nat)
    requires ev.t < |s.ts|
    requires ev.Take? || ev.Give? || Next(s, ev) == s || Unmatched(s, ev)
    ensures Next(s, ev).free == s.free && Own(Next(s, ev).ts[ev.t], x) == Own(s.ts[ev.t], x)
  {
  }

  /** An index moves between the free list and its thread, or does not move. */
  lemma MovesOnce(s: State, ev: Event, x: nat)
    requires ev.t < |s.ts| && (s.ts[ev.t].pc.Permitted? ==> s.free != [])
    ensures multiset(Next(s, ev).free)[x] + Own(Next(s, ev).ts[ev.t], x) == multiset(s.free)[x] + Own(s.ts[ev.t], x)
  {
    var th := s.ts[ev.t];
    if ev.PopFree? && th.pc.Permitted? { PopFreeMovesOnce(s, ev.t, x); }
    else if ev.PushStack? && th.pc.Popped? { PushedMovesOnce(s, ev.t, x); }
    else if ev.PopStack? && th.pc.Idle? && th.stack != [] { PoppedMovesOnce(s, ev.t, x); }
    else if ev.AppendFree? && th.pc.Unstacked? { AppendMovesOnce(s, ev.t, x); }
    else { MovesNone(s, ev, x); }
  }

  lemma StepKeepsSingly(s: State, n: nat, ev: Event, x: nat)
    requires Conserved(s, n) && ev.t < |s.ts|
    ensures Singly(Next(s, ev), n, x)
  {
    BetweenCounts(s.ts, ev.t);
    MovesOnce(s, ev, x);
    var s' := Next(s, ev);
    assert Singly(s, n, x) && s'.ts == s.ts[ev.t := s'.ts[ev.t]];
    UpdateHeld(s.ts, ev.t, s'.ts[ev.t], x);
  }

  /** A step keeps the books straight exactly when it is not a release without an acquire. */
  lemma StepConservesIffMatched(s: State, n: nat, ev: Event)
    requires Conserved(s, n)
    ensures Conserved(Next(s, ev), n) <==> !Unmatched(s, ev)
  {
    if ev.t < |s.ts| {
      var s' := Next(s, ev);
      assert s'.ts == s.ts[ev.t := s'.ts[ev.t]];
      UpdateCounts(s.ts, ev.t, s'.ts[ev.t]);
      BetweenCounts(s.ts, ev.t);
      forall x ensures Singly(s', n, x) { StepKeepsSingly(s, n, ev, x); }
    }
  }

  lemma {:induction false} RunConserves(s: State, n: nat, evs: seq<Event>)
    requires Conserved(s, n) && MatchedRun(s, evs)
    ensures Conserved(RunAll(s, evs), n)
    decreases evs
  {
    if evs != [] {
      StepConservesIffMatched(s, n, evs[0]);
      RunConserves(Next(s, evs[0]), n, evs[1..]);
    }
  }

  function Start(n: nat, threads: nat): State {
    State(n, seq(n, i => i), seq(threads, _ => Thread(Idle, [])))
  }

  lemma StartIsConserved(n: nat, threads: nat)
    ensures Conserved(Start(n, threads), n)
  {
    forall x ensures Singly(Start(n, threads), n, x) {
      FreshList(n, x);
      FreshThreads(threads, x);
    }
    FreshThreads(threads, 0);
  }

  lemma {:induction false} FreshList(n: nat, x: nat)
    ensures multiset(seq(n, i => i))[x] == if x < n then 1 else 0
  {
    if n > 0 {
      FreshList(n - 1, x);
      assert seq(n, i => i) == seq(n - 1, i => i) + [n - 1];
    }
  }

  lemma {:induction false} FreshThreads(k: nat, x: nat)
    ensures var ts := seq(k, _ => Thread(Idle, [])); Held(ts, x) == Between(ts) == Total(ts) == 0
  {
    if k > 0 {
      FreshThreads(k - 1, x);
      var ts := seq(k, _ => Thread(Idle, []));
      assert ts[..k - 1] == seq(k - 1, _ => Thread(Idle, []));
    }
  }

  // ---- main result -------------------------------------------------------------------------

  lemma {:induction false} HeldIncludes(ts: seq<Thread>, a: nat, x: nat)
    requires a < |ts|
    ensures Held(ts, x) >= Own(ts[a], x)
    decreases |ts|
  {
    if a < |ts| - 1 { HeldIncludes(ts[..|ts| - 1], a, x); }
  }

  lemma {:induction false} HeldIncludesBoth(ts: seq<Thread>, a: nat, b: nat, x: nat)
    requires a < b < |ts|
    ensures Held(ts, x) >= Own(ts[a], x) + Own(ts[b], x)
    decreases |ts|
  {
    if b < |ts| - 1 { HeldIncludesBoth(ts[..|ts| - 1], a, b, x); }
    else { HeldIncludes(ts[..b], a, x); }
  }

  /**
   With matched releases the pop never meets an empty list, no thread holds an index twice, and at
   most n are held.
   */
  lemma FallbackIsConserved(n: nat, threads: nat, evs: seq<Event>, a: nat, x: nat)
    requires MatchedRun(Start(n, threads), evs)
    requires a < |RunAll(Start(n, threads), evs).ts|
    ensures var s := RunAll(Start(n, threads), evs);
            && |s.free| == s.permits + Between(s.ts)
            && (s.ts[a].pc.Permitted? ==> s.free != [])
            && multiset(s.free)[x] + Own(s.ts[a], x) <= 1
            && Total(s.ts) <= n
  {
    StartIsConserved(n, threads);
    RunConserves(Start(n, threads), n, evs);
    var s := RunAll(Start(n, threads), evs);
    BetweenCounts(s.ts, a);
    HeldIncludes(s.ts, a, x);
    assert Singly(s, n, x);
  }

  /** With matched releases no index is held by two threads. */
  lemma FallbackIsExclusive(n: nat, threads: nat, evs: seq<Event>, a: nat, b: nat, x: nat)
    requires MatchedRun(Start(n, threads), evs)
    requires a < b < |RunAll(Start(n, threads), evs).ts|
    ensures var s := RunAll(Start(n, threads), evs); Own(s.ts[a], x) + Own(s.ts[b], x) <= 1
  {
    StartIsConserved(n, threads);
    RunConserves(Start(n, threads), n, evs);
    var s := RunAll(Start(n, threads), evs);
    HeldIncludesBoth(s.ts, a, b, x);
    assert Singly(s, n, x);
  }

  /** One unmatched release is enough: with a single slot two threads then hold index 0 at once. */
  lemma UnmatchedReleaseShares()
    ensures var s := RunAll(Start(1, 2),
              [PopStack(1), Give(1), Take(0), PopFree(0), PushStack(0), Take(1), PopFree(1), PushStack(1)]);
            s.ts[0].stack == [0] && s.ts[1].stack == [0]
  {
    var idle := Thread(Idle, []);
    assert Start(1, 2) == State(1, [0], [idle, idle]);
    var s2 := Next(Next(Start(1, 2), PopStack(1)), Give(1));
    assert s2 == State(2, [0], [idle, idle]);
    var s4 := Next(Next(s2, Take(0)), PopFree(0));
    assert s4 == State(1, [], [Thread(Popped(0), []), idle]);
    assert [] + [0] == [0];
    var s5 := Next(s4, PushStack(0));
    assert s5 == State(1, [], [Thread(Idle, [0]), idle]);
    var s8 := Next(Next(Next(s5, Take(1)), PopFree(1)), PushStack(1));
    assert RunAll(s5, [Take(1), PopFree(1), PushStack(1)]) == s8;
    assert RunAll(s2, [Take(0), PopFree(0), PushStack(0), Take(1), PopFree(1), PushStack(1)])
             == RunAll(s5, [Take(1), PopFree(1), PushStack(1)]);
  }

  // ---- one thread's own code ---------------------------------------------------------------

  predicate ByOthers(evs: seq<Event>, t: nat) {
    forall k :: 0 <= k < |evs| ==> evs[k].t != t
  }

  lemma {:induction false} OthersKeepMe(s: State, evs: seq<Event>, t: nat)
    requires t < |s.ts| && ByOthers(evs, t)
    ensures |RunAll(s, evs).ts| == |s.ts| && RunAll(s, evs).ts[t] == s.ts[t]
    decreases evs
  {
    if evs != [] { OthersKeepMe(Next(s, evs[0]), evs[1..], t); }
  }

  /** The steps of one thread, in order. */
  function Ours(evs: seq<Event>, t: nat): seq<Event> {
    if evs == [] then []
    else if evs[|evs| - 1].t == t then Ours(evs[..|evs| - 1], t) + [evs[|evs| - 1]]
    else Ours(evs[..|evs| - 1], t)
  }

  lemma OursSnoc(evs: seq<Event>, ev: Event, t: nat)
    ensures Ours(evs + [ev], t) == if ev.t == t then Ours(evs, t) + [ev] else Ours(evs, t)
  {
    assert (evs + [ev])[..|evs|] == evs;
  }

  lemma {:induction false} OursAmongOthers(evs: seq<Event>, others: seq<Event>, t: nat)
    requires ByOthers(others, t)
    ensures Ours(evs + others, t) == Ours(evs, t)
    decreases |others|
  {
    if others == [] {
      assert evs + others == evs;
    } else {
      var n := |others| - 1;
      OursAmongOthers(evs, others[..n], t);
      OursSnoc(evs + others[..n], others[n], t);
      assert evs + others == evs + others[..n] + [others[n]];
    }
  }

  class FallbackSemaphore {
    const me: nat
    const n: nat
    const threads: nat
    const env: nat -> seq<Event>
    var world: State
    var calls: nat
    ghost var trace: seq<Event>

    ghost predicate Valid()
      reads this
    {
      && me < threads && me < |world.ts| && world == RunAll(Start(n, threads), trace)
      && forall k: nat :: ByOthers(env(k), me)
    }

    function Mine(): Thread
      reads this
      requires me < |world.ts|
    {
      world.ts[me]
    }

    /** No other thread is active. */
    ghost predicate Alone() { forall k: nat :: env(k) == [] }

    constructor (n: nat, threads: nat, me: nat, env: nat -> seq<Event>)
      requires me < threads && forall k: nat :: ByOthers(env(k), me)
      ensures Valid() && trace == [] && this.n == n && this.threads == threads && this.me == me
    {
      this.n, this.threads, this.me, this.env := n, threads, me, env;
      world, calls, trace := Start(n, threads), 0, [];
    }

    method Wait()
      requires Valid()
      modifies this
      ensures Valid() && Mine() == old(Mine()) && old(trace) <= trace && Ours(trace, me) == old(Ours(trace, me))
      ensures Alone() ==> world == old(world)
    {
      var others := env(calls);
      OthersKeepMe(world, others, me);
      OursAmongOthers(trace, others, me);
      RunAppend(Next, Start(n, threads), trace, others);
      world, trace, calls := RunAll(world, others), trace + others, calls + 1;
    }

    method Do(ev: Event)
      requires Valid() && ev.t == me
      modifies this`world, this`trace
      ensures Valid() && world == Next(old(world), ev) && trace == old(trace) + [ev]
      ensures Ours(trace, me) == old(Ours(trace, me)) + [ev]
    {
      OursSnoc(trace, ev, me);
      RunSnoc(Next, Start(n, threads), trace, ev);
      world, trace := Next(world, ev), trace + [ev];
    }

    /** One step of this thread, with whatever the others do before it; `seen` is what it acted on. */
    method Act(ev: Event) returns (ghost seen: State)
      requires Valid() && ev.t == me
      modifies this
      ensures Valid() && world == Next(seen, ev) && old(trace) <= trace
      ensures me < |seen.ts| && seen.ts[me] == old(Mine()) && (Alone() ==> seen == old(world))
      ensures Ours(trace, me) == old(Ours(trace, me)) + [ev]
    {
      Wait();
      seen := world;
      Do(ev);
    }

    /**
     `acquire`: False leaves the thread as it was; True pushes one index, and with matched releases
     nobody else has it.
     */
    method Acquire() returns (got: bool)
      requires Valid() && Mine().pc.Idle?
      modifies this
      ensures Valid() && Mine().pc.Idle? && old(trace) <= trace
      ensures !got ==> Mine() == old(Mine())
      ensures Ours(trace, me) == old(Ours(trace, me)) +
                (if got then [Take(me), PopFree(me), PushStack(me)] else [Take(me)])
      ensures got ==> |Mine().stack| == |old(Mine()).stack| + 1 && old(Mine()).stack <= Mine().stack
      ensures got && MatchedRun(Start(n, threads), trace) ==>
                forall u :: 0 <= u < |world.ts| && u != me ==> Own(world.ts[u], Last(Mine().stack)) == 0
    {
      Wait();
      got := world.permits > 0;
      Do(Take(me));
      if !got { return; }
      ghost var seen := Act(PopFree(me));
      seen := Act(PushStack(me));
      if MatchedRun(Start(n, threads), trace) { ExclusiveNow(); }
    }

    lemma ExclusiveNow()
      requires Valid() && Mine().stack != [] && MatchedRun(Start(n, threads), trace)
      ensures forall u :: 0 <= u < |world.ts| && u != me ==> Own(world.ts[u], Last(Mine().stack)) == 0
    {
      var x := Last(Mine().stack);
      LastOf(Mine().stack, x);
      forall u | 0 <= u < |world.ts| && u != me ensures Own(world.ts[u], x) == 0 {
        if u < me { FallbackIsExclusive(n, threads, trace, u, me, x); }
        else { FallbackIsExclusive(n, threads, trace, me, u, x); }
      }
    }

    /**
     `release`: the newest index goes back to the free list and a permit is given; with nothing held
     a permit is given all the same.
     */
    method Release()
      requires Valid() && Mine().pc.Idle?
      modifies this
      ensures Valid() && Mine().pc.Idle? && old(trace) <= trace
      ensures Mine().stack == if old(Mine()).stack == [] then [] else old(Mine()).stack[..|old(Mine()).stack| - 1]
      ensures Ours(trace, me) == old(Ours(trace, me))
                                 + (if old(Mine()).stack == [] then [PopStack(me), Give(me)]
                                    else [PopStack(me), AppendFree(me), Give(me)])
      ensures Alone() ==> world.permits == old(world).permits + 1
      ensures Alone() ==>
                world.free == old(world).free + (if old(Mine()).stack == [] then [] else [Last(old(Mine()).stack)])
    {
      ghost var seen := Act(PopStack(me));
      if Mine().pc.Unstacked? { seen := Act(AppendFree(me)); }
      seen := Act(Give(me));
    }
  }
}
