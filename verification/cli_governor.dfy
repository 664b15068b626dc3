/**
 `CrossProcessSemaphore`, flock path, as one thread runs it while every other thread and process of
 the machine may act before each of its system calls.
 */
module Governors {
  import opened Common
  import opened GovernorMachine

  /**
   What others do before our next system call, whether that call can open its slot file, and how much
   longer than asked a sleep takes.
   */
  datatype Turn = Turn(others: seq<Event>, openable: bool, overslept: nat)

  /** How an `acquire` stands when it returns, or when it is left waiting. */
  datatype Acquired = Got | TimedOut | Waiting

  /** `_POLL_S`, in milliseconds. */
  const POLL_MS: nat := 250

  /** An action of thread `t`, or the death of its process `p`. */
  predicate Concerns(ev: Event, t: nat, p: nat) {
    match ev
    case Probe(u, _, _) => u == t
    case Push(u) => u == t
    case Pop(u) => u == t
    case Unlock(u) => u == t
    case End(u) => u == t
    case Crash(q) => q == p
  }

  predicate ByOthers(evs: seq<Event>, t: nat, p: nat) {
    forall k :: 0 <= k < |evs| ==> !Concerns(evs[k], t, p)
  }

  lemma {:induction false} OthersKeepMe(s: State, evs: seq<Event>, t: nat)
    requires t < |s.ts| && ByOthers(evs, t, s.ts[t].process)
    ensures |RunAll(s, evs).ts| == |s.ts| && RunAll(s, evs).ts[t] == s.ts[t]
    decreases evs
  {
    if evs != [] {
      assert !Concerns(evs[0], t, s.ts[t].process);
      OthersKeepMe(Next(s, evs[0]), evs[1..], t);
    }
  }

  /**
   Position `at` of a run is `t`'s probe of `slot`, and it failed: the slot was locked then, or its
   file would not open.
   */
  ghost predicate Refused(start: State, trace: seq<Event>, at: nat, t: nat, slot: nat) {
    && at < |trace| && trace[at].Probe? && trace[at].t == t && trace[at].slot == slot
    && (!trace[at].openable || slot in RunAll(start, trace[..at]).locks)
  }

  class CrossProcessSemaphore {
    const me: nat
    const process: nat
    const n: nat
    const env: nat -> Turn
    var world: State
    var calls: nat
    var now: int
    ghost const start: State
    ghost var trace: seq<Event>

    ghost predicate Valid()
      reads this
    {
      && me < |world.ts| && world.ts[me].process == process && world.ts[me].limit == n
      && Init(start) && world == RunAll(start, trace)
      && forall k: nat :: ByOthers(env(k).others, me, process)
    }

    function Mine(): Thread
      reads this
      requires me < |world.ts|
    {
      world.ts[me]
    }

    constructor (me: nat, env: nat -> Turn, world: State, now: int)
      requires Init(world) && me < |world.ts|
      requires forall k: nat :: ByOthers(env(k).others, me, world.ts[me].process)
      ensures Valid() && this.me == me && this.world == world && trace == [] && fresh(this)
    {
      this.me, this.env, this.world, this.now, this.start := me, env, world, now, world;
      this.process, this.n := world.ts[me].process, world.ts[me].limit;
      calls := 0;
      trace := [];
    }

    /** The others' turn. */
    method Wait() returns (turn: Turn)
      requires Valid()
      modifies this`world, this`calls, this`trace
      ensures Valid() && Mine() == old(Mine()) && old(trace) <= trace
    {
      turn := env(calls);
      OthersKeepMe(world, turn.others, me);
      RunAppend(Next, start, trace, turn.others);
      world := RunAll(world, turn.others);
      trace := trace + turn.others;
      calls := calls + 1;
    }

    /** One action of ours. */
    method Do(ev: Event)
      requires Valid() && Concerns(ev, me, process) && !ev.Crash?
      modifies this`world, this`trace
      ensures Valid() && world == Next(old(world), ev) && trace == old(trace) + [ev]
    {
      RunSnoc(Next, start, trace, ev);
      world := Next(world, ev);
      trace := trace + [ev];
    }

    /** `_try_slot`: on failure every slot was refused when it was probed, in this call. */
    method TrySlot() returns (slot: Option<nat>, ghost at: seq<nat>)
      requires Valid() && Between(Mine())
      modifies this`world, this`calls, this`trace
      ensures Valid() && old(trace) <= trace
      ensures slot.Some? ==> slot.value < n && Mine() == old(Mine()).(hand := slot)
      ensures slot.None? ==> Mine() == old(Mine()) && |at| == n
      ensures slot.None? ==> forall i :: 0 <= i < n ==> |old(trace)| <= at[i] && Refused(start, trace, at[i], me, i)
    {
      at := [];
      for i := 0 to n
        invariant Valid() && Mine() == old(Mine()) && old(trace) <= trace && |at| == i
        invariant forall j :: 0 <= j < i ==> |old(trace)| <= at[j] && Refused(start, trace, at[j], me, j)
      {
        ghost var known := trace;
        var turn := Wait();
        var free := i !in world.locks;
        ghost var before := trace;
        Do(Probe(me, i, turn.openable));
        if turn.openable && free {
          return Some(i), at;
        }
        assert trace[..|before|] == before;
        forall j | 0 <= j < i ensures Refused(start, trace, at[j], me, j) {
          assert trace[at[j]] == known[at[j]] && trace[..at[j]] == known[..at[j]];
        }
        at := at + [|before|];
      }
      slot := None;
    }

    /**
     `acquire`. `Got` leaves a new slot, exclusively ours, on top of the stack. `TimedOut` leaves everything, no
     earlier than the timeout, and means the last sweep found every slot refused. Without a timeout the wait has no
     bound of its own: it is followed for any number of `sweeps`, and `Waiting` means the last of them found every
     slot refused.
     */
    method Acquire(timeout: Option<int>, sweeps: nat) returns (got: Acquired, ghost at: seq<nat>)
      requires Valid() && Between(Mine())
      modifies this
      ensures Valid() && old(trace) <= trace && Between(Mine())
      ensures got.Got? ==>
                && CurrentSlot(Mine()).Some?
                && Mine() == old(Mine()).(stack := old(Mine()).stack + [CurrentSlot(Mine()).value])
      ensures got.Got? ==> forall u :: 0 <= u < |world.ts| && u != me ==>
                CurrentSlot(Mine()).value !in Owned(world.ts[u])
      ensures !got.Got? ==> Mine() == old(Mine())
      ensures got.TimedOut? ==> timeout.Some? && now >= old(now) + timeout.value
      ensures got.Waiting? ==> timeout.None? && now >= old(now) + POLL_MS * sweeps
      ensures got.TimedOut? || (got.Waiting? && sweeps > 0) ==>
                |at| == n && forall i :: 0 <= i < n ==> |old(trace)| <= at[i] && Refused(start, trace, at[i], me, i)
    {
      var deadline := now + if timeout.Some? then timeout.value else 0;
      var k := 0;
      at := [];
      while timeout.Some? || k < sweeps
        invariant Valid() && Mine() == old(Mine()) && old(trace) <= trace
        invariant k <= sweeps || timeout.Some?
        invariant now >= old(now) + POLL_MS * k
        invariant k > 0 ==> Swept(at, |old(trace)|)
        decreases if timeout.Some? then deadline - now else sweeps - k
      {
        var slot;
        slot, at := TrySlot();
        if slot.Some? {
          Do(Push(me));
          assert Mine().stack == old(Mine()).stack + [slot.value];
          forall u | 0 <= u < |world.ts| && u != me ensures CurrentSlot(Mine()).value !in Owned(world.ts[u]) {
            CurrentSlotIsExclusive(start, trace, me, u);
          }
          return Got, at;
        }
        if timeout.Some? && now >= deadline {
          return TimedOut, at;
        }
        now := now + POLL_MS + env(calls).overslept;
        k := k + 1;
      }
      got := Waiting;
    }

    /** Every slot was refused, at these places of the trace. */
    ghost predicate Swept(at: seq<nat>, from: nat) reads this {
      |at| == n && forall i :: 0 <= i < n ==> from <= at[i] && Refused(start, trace, at[i], me, i)
    }

    /** `release`: the newest slot is unlocked and nothing else changes hands; on an empty stack it does nothing. */
    method Release()
      requires Valid() && Between(Mine())
      modifies this`world, this`calls, this`trace
      ensures Valid() && old(trace) <= trace && Between(Mine())
      ensures old(CurrentSlot(Mine())).None? ==> world == old(world)
      ensures old(CurrentSlot(Mine())).Some? ==>
                && Mine() == old(Mine()).(stack := old(Mine()).stack[..|old(Mine()).stack| - 1])
                && old(CurrentSlot(Mine())).value !in world.locks
    {
      if Mine().stack == [] {
        return;
      }
      Do(Pop(me));
      var turn := Wait();
      Do(Unlock(me));
    }
  }
}
