/**
 `ClaimLock` itself, statement by statement, in one worker whose peers may act before every system
 call. Each system call is one step of `ClaimLockMachine`, so what is proved there about every
 interleaving is proved about this code.
 */
module ClaimLocks {
  import opened Common
  import opened ClaimLockMachine

  /** What happens between two system calls of this worker, and whether the next call fails. */
  datatype Turn = Turn(others: seq<Event>, ok: bool)

  /** `claim` answers, or dies on an OSError that `_create` and `_expire` do not catch. */
  datatype Outcome = Got | Refused | Raised

  predicate NotBy(evs: seq<Event>, w: nat) {
    forall k :: 0 <= k < |evs| ==> !Acts(evs[k], w)
  }

  predicate OnlyTime(evs: seq<Event>) {
    forall k :: 0 <= k < |evs| ==> evs[k].Tick? && evs[k].dt >= 0.0
  }

  lemma {:induction false} OthersKeepMyPc(s: State, evs: seq<Event>, w: nat)
    requires NotBy(evs, w) && w < |s.ws|
    ensures |RunAll(s, evs).ws| == |s.ws| && RunAll(s, evs).ws[w] == s.ws[w]
    ensures RunAll(s, evs).staleAfter == s.staleAfter
    decreases evs
  {
    if evs != [] {
      assert !Acts(evs[0], w);
      OthersKeepMyPc(Next(s, evs[0]), evs[1..], w);
    }
  }

  lemma {:induction false} TimeKeepsFiles(s: State, evs: seq<Event>)
    requires OnlyTime(evs)
    ensures RunAll(s, evs) == s.(now := RunAll(s, evs).now) && RunAll(s, evs).now >= s.now
    decreases evs
  {
    if evs != [] { TimeKeepsFiles(Next(s, evs[0]), evs[1..]); }
  }

  predicate Lapsed(s: State) { s.lock.Lock? ==> s.now - DatedBy(s.lock) > s.staleAfter }

  /** Whatever a crash left behind, old enough: the lock past `stale_after_s`, the steal file past 60 s. */
  predicate Abandoned(s: State) {
    && Lapsed(s)
    && (s.steal.Steal? ==> s.now - StealDatedBy(s.steal) > STEAL_STALE_S)
  }

  class ClaimLock {
    const me: nat
    const env: nat -> Turn
    var world: State
    var calls: nat
    ghost const start: State
    ghost var trace: seq<Event>

    ghost predicate Valid()
      reads this
    {
      && me < |world.ws| && world == RunAll(start, trace)
      && forall k: nat :: NotBy(env(k).others, me)
    }

    /** No peer acts; time may pass, and our own system calls may fail. */
    ghost predicate Quiet() { forall k: nat :: OnlyTime(env(k).others) }

    /** No peer acts and no system call fails; time may pass. */
    ghost predicate Alone() { Quiet() && forall k: nat :: env(k).ok }

    function Mine(): Pc
      reads this
      requires me < |world.ws|
    {
      world.ws[me]
    }

    /** Neither file has changed. */
    ghost predicate Still(was: State)
      reads this
    {
      world.lock == was.lock && world.steal == was.steal && world.now >= was.now
    }

    /** The lock that was there has not expired yet. */
    ghost predicate StillFresh(was: State)
      reads this
    {
      was.lock.Lock? && world.now - DatedBy(was.lock) <= world.staleAfter
    }

    constructor (me: nat, env: nat -> Turn, world: State)
      requires me < |world.ws| && forall k: nat :: NotBy(env(k).others, me)
      ensures Valid() && this.me == me && this.env == env && this.world == world && start == world && trace == []
    {
      this.me := me;
      this.env := env;
      this.world := world;
      this.start := world;
      calls := 0;
      trace := [];
    }

    /** The peers' turn, then nothing yet of ours. Returns whether our next call will succeed. */
    method Wait() returns (ok: bool)
      requires Valid()
      modifies this
      ensures Valid() && Mine() == old(Mine()) && world.staleAfter == old(world.staleAfter)
      ensures old(trace) <= trace && calls == old(calls) + 1 && ok == env(old(calls)).ok
      ensures Quiet() ==> world == old(world).(now := world.now) && world.now >= old(world.now)
    {
      var turn := env(calls);
      OthersKeepMyPc(world, turn.others, me);
      if Quiet() { TimeKeepsFiles(world, turn.others); }
      RunAppend(Next, start, trace, turn.others);
      world := RunAll(world, turn.others);
      trace := trace + turn.others;
      calls := calls + 1;
      ok := turn.ok;
    }

    /** One atomic step of ours. */
    method Do(ev: Event)
      requires Valid()
      modifies this`world, this`trace
      ensures Valid() && world == Next(old(world), ev) && trace == old(trace) + [ev]
    {
      RunSnoc(Next, start, trace, ev);
      world := Next(world, ev);
      trace := trace + [ev];
    }

    /** `_create`: read the clock, open exclusively, write the record. */
    method Create(again: bool) returns (won: Outcome)
      requires Valid() && Mine() == if again then Retrying else Idle
      modifies this
      ensures Valid() && world.staleAfter == old(world.staleAfter) && old(trace) <= trace
      ensures won.Got? ==> Mine().Holding?
      ensures won.Refused? ==> Mine() == if again then Idle else AgeRead(Outer)
      ensures won.Raised? ==> Mine().Idle?
      ensures Quiet() ==> world.steal == old(world.steal) && world.now >= old(world.now)
      ensures Quiet() ==> (won.Refused? <==> old(world.lock.Lock?) || !env(old(calls) + 1).ok)
      ensures Quiet() && won.Refused? ==> world.lock == old(world.lock)
      ensures Quiet() && won.Got? ==> world.lock.Lock? && world.lock.content == Record(Mine().token, Mine().ts)
      ensures Quiet() && won.Raised? ==> world.lock.Lock? && world.lock.content.Unparseable?
      ensures Alone() ==> !won.Raised?
    {
      var ok := Wait();
      Do(if again then Run(me, ok) else Call(me));
      ok := Wait();
      var exists_ := world.lock.Lock?;
      Do(Run(me, ok));
      if exists_ || !ok {
        return Refused;
      }
      ok := Wait();
      Do(Run(me, ok));
      won := if ok then Got else Raised;
    }

    /** The clock minus the date of the file. */
    method ReadClock(who: Asker, ts: real) returns (age: real)
      requires Valid() && Mine() == AgeClock(who, ts)
      modifies this
      ensures Valid() && world.staleAfter == old(world.staleAfter) && old(trace) <= trace
      ensures Mine() == Verdict(who, Some(age), world.staleAfter) && age == world.now - ts
      ensures Quiet() ==> Still(old(world))
    {
      var ok := Wait();
      age := world.now - ts;
      Do(Run(me, ok));
    }

    /** The mtime of a file without a usable stamp, unless that ends the matter. */
    method ReadMtime(who: Asker) returns (found: bool, age: Option<real>, ts: real)
      requires Valid() && Mine() == AgeStat(who)
      modifies this
      ensures Valid() && world.staleAfter == old(world.staleAfter) && old(trace) <= trace
      ensures Mine() == if found then AgeClock(who, ts) else Verdict(who, age, world.staleAfter)
      ensures Quiet() ==> Still(old(world))
      ensures Quiet() ==> (found <==> old(Present(world, who)) && env(old(calls)).ok)
      ensures Quiet() && found ==> ts == Mtime(world, who)
      ensures Quiet() && !found ==> age == if old(Present(world, who)) then Some(0.0) else None
    {
      var ok := Wait();
      var there := Present(world, who);
      ts := if there then Mtime(world, who) else 0.0;
      Do(Run(me, ok));
      found := there && ok;
      age := if there then Some(0.0) else None;
    }

    /** `_age`: absent is `None`, unreadable is 0, else the clock minus the stamp or the mtime. */
    method Age(who: Asker) returns (age: Option<real>)
      requires Valid() && Mine() == AgeRead(who)
      modifies this
      ensures Valid() && world.staleAfter == old(world.staleAfter) && old(trace) <= trace
      ensures Mine() == Verdict(who, age, world.staleAfter)
      ensures Quiet() ==> Still(old(world)) && age.None? == !old(Present(world, who))
      ensures Quiet() && old(Present(world, who)) && !env(old(calls)).ok ==> age == Some(0.0)
      ensures Quiet() && old(Present(world, who) && InnerStamp(world, who).None?) && !env(old(calls) + 1).ok ==>
                age == Some(0.0)
      ensures Alone() && age.Some? ==>
                age.value == world.now - (if who.Guard? then StealDatedBy(world.steal) else DatedBy(world.lock))
    {
      var ok := Wait();
      var there := Present(world, who);
      var stamp := if there then InnerStamp(world, who) else None;
      Do(Run(me, ok));
      if !there { return None; }
      if !ok { return Some(0.0); }
      var ts := if stamp.Some? then stamp.value else 0.0;
      if stamp.None? {
        var found;
        found, age, ts := ReadMtime(who);
        if !found { return; }
      }
      var seconds := ReadClock(who, ts);
      age := Some(seconds);
    }

    /** `_is_stale`. */
    method IsStale(who: Asker) returns (stale: bool)
      requires Valid() && Mine() == AgeRead(who) && !who.Guard?
      modifies this
      ensures Valid() && world.staleAfter == old(world.staleAfter) && old(trace) <= trace
      ensures Mine() == if who.Outer? then (if stale then AgeRead(Guard) else Idle)
                else (if stale then Corpse else Leaving(false))
      ensures Quiet() ==> Still(old(world))
      ensures Quiet() && old(world.lock.Lock?) && !env(old(calls)).ok && world.staleAfter >= 0.0 ==> !stale
      ensures Alone() ==> (stale <==> Lapsed(world))
    {
      var age := Age(who);
      stale := age.None? || age.value > world.staleAfter;
    }

    /** `_unlink_corpse`: whoever acts meanwhile, True means the path is clear. */
    method UnlinkCorpse() returns (clear: bool)
      requires Valid() && Mine().Corpse?
      modifies this
      ensures Valid() && world.staleAfter == old(world.staleAfter) && old(trace) <= trace
      ensures Mine() == Leaving(clear) && (clear <==> world.lock.NoLock?)
      ensures Quiet() ==> world.steal == old(world.steal) && world.now >= old(world.now)
      ensures Quiet() && !clear ==> world.lock == old(world.lock)
      ensures Alone() ==> clear
    {
      var ok := Wait();
      clear := ok || world.lock.NoLock?;
      Do(Run(me, ok));
    }

    /** The body of `_expire` between taking and leaving the guard. */
    method Judge() returns (clear: bool)
      requires Valid() && Mine().Inspecting?
      modifies this
      ensures Valid() && world.staleAfter == old(world.staleAfter) && old(trace) <= trace
      ensures Mine() == Leaving(clear) && (clear ==> world.lock.NoLock?)
      ensures Quiet() ==> world.steal == old(world.steal) && world.now >= old(world.now)
      ensures Quiet() && !clear ==> world.lock == old(world.lock)
      ensures Alone() && old(Lapsed(world)) ==> clear
      ensures Alone() && StillFresh(old(world)) ==> !clear
    {
      var ok := Wait();
      var seen := world.lock;
      Do(Run(me, ok));
      if seen.NoLock? { return true; }
      if !ok { return false; }
      if seen.content.Unparseable? {
        var stale := IsStale(Inner);
        if !stale { return false; }
        clear := UnlinkCorpse();
        return;
      }
      clear := JudgeRecord(seen.content.token, seen.content.ts);
    }

    /** The judgement of a parsed record: stale, still the same, then removed. */
    method JudgeRecord(token: nat, ts: real) returns (clear: bool)
      requires Valid() && Mine() == if ts > 0.0 then JudgeClock(token, ts) else JudgeStat(token)
      modifies this
      ensures Valid() && world.staleAfter == old(world.staleAfter) && old(trace) <= trace
      ensures Mine() == Leaving(clear) && (clear ==> world.lock.NoLock?)
      ensures Quiet() ==> world.steal == old(world.steal) && world.now >= old(world.now)
      ensures Quiet() && !clear ==> world.lock == old(world.lock)
      ensures Alone() && old(world.lock.Lock? && world.lock.content == Record(token, ts)) ==>
                && (old(Lapsed(world)) ==> clear)
                && (StillFresh(old(world)) ==> !clear)
    {
      var stale := StaleRecord(token, ts);
      if !stale { return false; }
      var ok := Wait();
      var current := world.lock;
      Do(Run(me, ok));
      if current.NoLock? { return true; }
      if !ok || current.content.Unparseable? || current.content.token != token { return false; }
      clear := UnlinkCorpse();
    }

    /** The mtime that dates a record without a usable stamp, if it can be had. */
    method RecordMtime(token: nat) returns (found: bool, dated: real)
      requires Valid() && Mine() == JudgeStat(token)
      modifies this
      ensures Valid() && world.staleAfter == old(world.staleAfter) && old(trace) <= trace
      ensures Mine() == if found then JudgeClock(token, dated) else Rereading(token)
      ensures Quiet() ==> Still(old(world)) && (found <==> old(world.lock.Lock?) && env(old(calls)).ok)
      ensures Quiet() && found ==> dated == world.lock.mtime
    {
      var ok := Wait();
      found := world.lock.Lock? && ok;
      dated := if found then world.lock.mtime else 0.0;
      Do(Run(me, ok));
    }

    /** `_stale_record`: a record without a usable stamp is dated by the file, and by nothing if that fails. */
    method StaleRecord(token: nat, ts: real) returns (stale: bool)
      requires Valid() && Mine() == if ts > 0.0 then JudgeClock(token, ts) else JudgeStat(token)
      modifies this
      ensures Valid() && world.staleAfter == old(world.staleAfter) && old(trace) <= trace
      ensures Mine() == if stale then Rereading(token) else Leaving(false)
      ensures ts > 0.0 ==> stale == (world.now - ts > world.staleAfter)
      ensures Quiet() ==> Still(old(world))
      ensures Quiet() && ts <= 0.0 && !(old(world.lock.Lock?) && env(old(calls)).ok) ==> stale
      ensures Alone() && world.lock.Lock? && world.lock.content == Record(token, ts) ==> (stale <==> Lapsed(world))
    {
      var dated := ts;
      if ts <= 0.0 {
        var found;
        found, dated := RecordMtime(token);
        if !found { return true; }
      }
      var ok := Wait();
      stale := world.now - dated > world.staleAfter;
      Do(Run(me, ok));
    }

    /** A worker died mid-steal; the steal file must not block the next one. */
    method ClearOldSteal()
      requires Valid() && Mine() == AgeRead(Guard)
      modifies this
      ensures Valid() && world.staleAfter == old(world.staleAfter) && old(trace) <= trace
      ensures Mine().StealOpening?
      ensures Quiet() ==> world.lock == old(world.lock) && world.now >= old(world.now)
      ensures Alone() && old(Abandoned(world)) ==> world.steal.NoSteal?
    {
      var age := Age(Guard);
      if age.Some? && age.value > STEAL_STALE_S {
        assert Mine().StealUnlinkOld?;
        var ok := Wait();
        Do(Run(me, ok));
      }
    }

    /** The guard half of `_expire`: clear a dead thief's steal file, then create our own. */
    method TakeGuard() returns (taken: Outcome)
      requires Valid() && Mine() == AgeRead(Guard)
      modifies this
      ensures Valid() && world.staleAfter == old(world.staleAfter) && old(trace) <= trace
      ensures Mine() == if taken.Got? then Inspecting else Idle
      ensures Quiet() ==> world.lock == old(world.lock) && world.now >= old(world.now)
      ensures Alone() && old(Abandoned(world)) ==> taken.Got?
    {
      ClearOldSteal();
      var ok := Wait();
      var there := world.steal.Steal?;
      Do(Run(me, ok));
      if there || !ok { return Refused; }
      ok := Wait();
      Do(Run(me, ok));
      taken := if ok then Got else Raised;
    }

    /** `_expire`: take the guard, judge the lock, leave the guard. */
    method Expire() returns (clear: Outcome)
      requires Valid() && Mine() == AgeRead(Guard)
      modifies this
      ensures Valid() && world.staleAfter == old(world.staleAfter) && old(trace) <= trace
      ensures Mine() == if clear.Got? then Retrying else Idle
      ensures Quiet() ==> world.now >= old(world.now)
      ensures Quiet() ==> if clear.Got? then world.lock.NoLock? else world.lock == old(world.lock)
      ensures Alone() && old(Abandoned(world)) ==> clear.Got? && world.steal.NoSteal?
      ensures Alone() && StillFresh(old(world)) ==> !clear.Got?
    {
      clear := TakeGuard();
      if !clear.Got? { return; }
      var safe := Judge();
      var ok := Wait();
      Do(Run(me, ok));
      clear := if safe then Got else Refused;
    }

    /**
     `claim`. It answers truthfully in every interleaving, is exclusive in every disciplined one, and on its own takes
     a free lock, spares a fresh one and recovers whatever a crash left behind.
     */
    method Claim() returns (got: Outcome)
      requires Valid() && Mine().Idle?
      modifies this
      ensures Valid() && old(trace) <= trace
      ensures Mine().Holding? == got.Got? && (!got.Got? ==> Mine().Idle?)
      ensures Init(start) && DisciplinedRun(start, trace) ==> MutualExclusion(world) && HolderOnDisk(world)
      ensures Alone() && old(Abandoned(world)) ==> got.Got?
      ensures Alone() && old(Abandoned(world)) ==>
                (world.steal.NoSteal? <==> old(world.lock.Lock? || world.steal.NoSteal?))
      ensures Alone() && old(world.lock.NoLock?) ==> got.Got?
      ensures Alone() && StillFresh(old(world)) ==> got.Refused? && world.lock == old(world.lock)
    {
      got := Create(false);
      if got.Refused? {
        var stale := IsStale(Outer);
        if stale {
          got := Expire();
          if got.Got? {
            got := Create(true);
          }
        }
      }
      if Init(start) && DisciplinedRun(start, trace) { ClaimIsExclusive(start, trace); }
    }

    /** `release`: with a remembered token it unlinks only its own record; without one it unlinks outright. */
    method Release()
      requires Valid() && (Mine().Holding? || Mine().Idle?)
      modifies this
      ensures Valid() && old(trace) <= trace && Mine().Idle?
      ensures Quiet() ==> world.steal == old(world.steal)
      ensures Quiet() && old(Mine().Holding?) ==>
                var own := old(LockCarries(world, Mine().token)) && env(old(calls)).ok && env(old(calls) + 1).ok;
                world.lock == if own then NoLock else old(world.lock)
      ensures Quiet() && old(Mine().Idle?) ==> world.lock == if env(old(calls)).ok then NoLock else old(world.lock)
      ensures Init(start) && DisciplinedRun(start, trace) ==> MutualExclusion(world) && HolderOnDisk(world)
    {
      var ok := Wait();
      Do(Event.Release(me, ok));
      if Mine().Releasing? {
        ok := Wait();
        Do(Run(me, ok));
      }
      if Init(start) && DisciplinedRun(start, trace) { ClaimIsExclusive(start, trace); }
    }
  }
}
