/**
 Each hypothesis of the claim lock is needed: for every rule there is a run that obeys all the
 others, breaks that one, and ends with two workers holding an unexpired claim.
 */
module ClaimLockLimits {
  import opened Common
  import opened ClaimLockMachine

  ghost predicate ObeysRun(r: Rule, s: State, evs: seq<Event>)
    decreases evs
  {
    evs == [] || (Obeys(r, s, evs[0]) && ObeysRun(r, Next(s, evs[0]), evs[1..]))
  }

  /** Two unexpired holders at once. */
  predicate DoubleHeld(s: State) { Live(s, 0) && Live(s, 1) }

  /** A run from `s` to `m` that breaks no rule but perhaps `broken`. */
  ghost predicate Reaches(broken: Rule, s: State, evs: seq<Event>, m: State) {
    RunAll(s, evs) == m && forall r: Rule :: r != broken ==> ObeysRun(r, s, evs)
  }

  /** A run that breaks `broken` only, and loses mutual exclusion. */
  ghost predicate Refutes(broken: Rule, s: State, evs: seq<Event>) {
    && Init(s) && DoubleHeld(RunAll(s, evs))
    && forall r: Rule :: r != broken ==> ObeysRun(r, s, evs)
  }

  lemma {:induction false} ObeyBoth(s: State, a: seq<Event>, b: seq<Event>)
    ensures forall r :: ObeysRun(r, s, a) && ObeysRun(r, RunAll(s, a), b) ==> ObeysRun(r, s, a + b)
    decreases a
  {
    if a == [] {
      assert a + b == b;
    } else {
      assert (a + b)[0] == a[0] && (a + b)[1..] == a[1..] + b;
      ObeyBoth(Next(s, a[0]), a[1..], b);
    }
  }

  // ---- phases of a run: one worker moves while the other stands still ---------------------

  function Turns(w: nat, n: nat): seq<Event> { seq(n, _ => Run(w, true)) }

  function Steps(s: State, w: nat, n: nat): State
    decreases n
  {
    if n == 0 then s else Steps(Next(s, Run(w, true)), w, n - 1)
  }

  /** Worker `w` has nothing stale in hand and nobody else has a lock file half written. */
  predicate Quiet(s: State, w: nat) {
    && w < |s.ws| && s.staleAfter >= 0.0
    && (s.ws[w].Creating? ==> s.now - s.ws[w].stampedAt <= s.staleAfter)
    && (OwnsToken(s.ws[w]) ==> s.now - s.ws[w].ts <= s.staleAfter)
    && forall j :: 0 <= j < |s.ws| && j != w ==> !s.ws[j].Writing?
  }

  lemma {:induction false} TurnsObey(s: State, w: nat, n: nat)
    requires Quiet(s, w)
    ensures RunAll(s, Turns(w, n)) == Steps(s, w, n)
    ensures forall r :: ObeysRun(r, s, Turns(w, n))
    decreases n
  {
    if n > 0 {
      assert Turns(w, n)[0] == Run(w, true) && Turns(w, n)[1..] == Turns(w, n - 1);
      TurnsObey(Next(s, Run(w, true)), w, n - 1);
    }
  }

  lemma Then(broken: Rule, s: State, before: seq<Event>, m: State, ev: Event) returns (after: seq<Event>)
    requires Reaches(broken, s, before, m)
    requires forall r: Rule :: r != broken ==> Obeys(r, m, ev)
    ensures Reaches(broken, s, after, Next(m, ev))
  {
    RunSnoc(Next, s, before, ev);
    ObeyBoth(s, before, [ev]);
    assert forall r: Rule :: Obeys(r, m, ev) ==> ObeysRun(r, m, [ev]);
    after := before + [ev];
  }

  lemma ThenTurns(broken: Rule, s: State, before: seq<Event>, m: State, w: nat, n: nat) returns (after: seq<Event>)
    requires Reaches(broken, s, before, m) && Quiet(m, w)
    ensures Reaches(broken, s, after, Steps(m, w, n))
  {
    TurnsObey(m, w, n);
    RunAppend(Next, s, before, Turns(w, n));
    ObeyBoth(s, before, Turns(w, n));
    after := before + Turns(w, n);
  }

  lemma {:induction false} StepsAdd(s: State, w: nat, n: nat, m: nat)
    ensures Steps(s, w, n + m) == Steps(Steps(s, w, n), w, m)
    decreases n
  {
    if n > 0 { StepsAdd(Next(s, Run(w, true)), w, n - 1, m); }
  }

  /** From `claim` to the open steal file, when the lock is expired and no steal file is there. */
  lemma EnterGuard(s: State, w: nat)
    requires w < |s.ws| && s.ws[w] == Creating(s.now, false)
    requires s.lock.Lock? && s.lock.content.Record? && s.lock.content.ts > 0.0
    requires s.now - s.lock.content.ts > s.staleAfter && s.steal.NoSteal?
    ensures Steps(s, w, 5) == s.(steal := Steal(s.nextId, w, s.now, None), nextId := s.nextId + 1,
                                 ws := s.ws[w := StealWriting(s.nextId)])
  {
    var s2 := Next(Next(s, Run(w, true)), Run(w, true));
    assert s2 == s.(ws := s.ws[w := AgeClock(Outer, s.lock.content.ts)]);
    var s3 := Next(s2, Run(w, true));
    assert s3 == s.(ws := s.ws[w := AgeRead(Guard)]);
    assert Steps(s3, w, 2) == Steps(s, w, 5);
  }

  /** From the freshly opened steal file to the verdict that the lock is a corpse. */
  lemma JudgeCorpse(s: State, w: nat)
    requires w < |s.ws| && s.steal.Steal? && s.ws[w] == StealWriting(s.steal.inode)
    requires s.lock.Lock? && s.lock.content.Record? && s.lock.content.ts > 0.0
    requires s.now - s.lock.content.ts > s.staleAfter
    ensures Steps(s, w, 4) == s.(steal := s.steal.(stamp := Some(s.now)), ws := s.ws[w := Corpse])
  {
    var s2 := Next(Next(s, Run(w, true)), Run(w, true));
    assert s2 == s.(steal := s.steal.(stamp := Some(s.now)),
             ws := s.ws[w := JudgeClock(s.lock.content.token, s.lock.content.ts)]);
    assert Steps(s2, w, 2) == Steps(s, w, 4);
  }

  function Claimed(s: State, w: nat): State
    requires w < |s.ws|
  {
    s.(lock := Lock(s.nextId, Record(s.nextId, s.now), s.now), nextId := s.nextId + 1,
       ws := s.ws[w := Holding(s.nextId, s.now)])
  }

  /** From the verdict to the new claim, whatever has happened to the two files meanwhile. */
  lemma TakeOver(s: State, w: nat)
    requires w < |s.ws| && s.ws[w] == Corpse
    ensures Steps(s, w, 5) == Claimed(s, w).(steal := NoSteal)
  {
    var s2 := Next(Next(s, Run(w, true)), Run(w, true));
    assert s2 == s.(lock := NoLock, steal := NoSteal, ws := s.ws[w := Retrying]);
    var s3 := Next(s2, Run(w, true));
    assert s3 == s.(lock := NoLock, steal := NoSteal, ws := s.ws[w := Creating(s.now, true)]);
    assert Steps(s3, w, 2) == Steps(s, w, 5);
  }

  lemma ThenClaim(broken: Rule, s: State, before: seq<Event>, m: State, w: nat) returns (after: seq<Event>)
    requires Reaches(broken, s, before, m) && w < |m.ws| && m.ws[w].Idle? && m.lock.NoLock? && m.staleAfter >= 0.0
    requires forall j :: 0 <= j < |m.ws| ==> !m.ws[j].Writing?
    ensures Reaches(broken, s, after, Claimed(m, w))
  {
    after := Then(broken, s, before, m, Call(w));
    var m1 := Next(m, Call(w));
    after := ThenTurns(broken, s, after, m1, w, 2);
    assert Steps(m1, w, 2) == Steps(Next(m1, Run(w, true)), w, 1);
    assert Steps(m1, w, 2) == Claimed(m, w);
  }

  /** Worker `w` is idle, the lock is expired, nobody is stealing. */
  predicate Stealable(m: State, w: nat) {
    && w < |m.ws| && m.ws[w].Idle? && m.staleAfter >= 0.0 && m.steal.NoSteal?
    && m.lock.Lock? && m.lock.content.Record? && m.lock.content.ts > 0.0
    && m.now - m.lock.content.ts > m.staleAfter
    && forall j :: 0 <= j < |m.ws| ==> !m.ws[j].Writing?
  }

  /** `w` runs from `claim` to the moment before it unlinks the expired lock. */
  lemma ThenVerdict(broken: Rule, s: State, before: seq<Event>, m: State, w: nat) returns (after: seq<Event>)
    requires Reaches(broken, s, before, m) && Stealable(m, w)
    ensures Reaches(broken, s, after,
              m.(steal := Steal(m.nextId, w, m.now, Some(m.now)), nextId := m.nextId + 1, ws := m.ws[w := Corpse]))
  {
    after := Then(broken, s, before, m, Call(w));
    var m1 := Next(m, Call(w));
    after := ThenTurns(broken, s, after, m1, w, 9);
    EnterGuard(m1, w);
    StepsAdd(m1, w, 5, 4);
    JudgeCorpse(Steps(m1, w, 5), w);
  }

  lemma ThenTakeOver(broken: Rule, s: State, before: seq<Event>, m: State, w: nat) returns (after: seq<Event>)
    requires Reaches(broken, s, before, m) && Quiet(m, w) && m.ws[w].Corpse?
    ensures Reaches(broken, s, after, Claimed(m, w).(steal := NoSteal))
  {
    after := ThenTurns(broken, s, before, m, w, 5);
    TakeOver(m, w);
  }

  /** `w` finds a steal file older than 60 s, clears it, and reaches the same verdict under its own. */
  lemma ThenBreakIn(broken: Rule, s: State, before: seq<Event>, m: State, w: nat) returns (after: seq<Event>)
    requires Reaches(broken, s, before, m)
    requires w < |m.ws| && m.ws[w].StealUnlinkOld? && Stealable(m.(steal := NoSteal, ws := m.ws[w := Idle]), w)
    ensures Reaches(broken, s, after,
              m.(steal := Steal(m.nextId, w, m.now, Some(m.now)), nextId := m.nextId + 1, ws := m.ws[w := Corpse]))
  {
    assert forall j :: 0 <= j < |m.ws| && j != w ==> m.ws[w := Idle][j] == m.ws[j];
    after := ThenTurns(broken, s, before, m, w, 6);
    StepsAdd(m, w, 2, 4);
    var m1 := Next(m, Run(w, true));
    assert m1 == m.(steal := NoSteal, ws := m.ws[w := StealOpening]);
    assert Steps(m, w, 2) == Steps(m1, w, 1) == Next(m1, Run(w, true));
    JudgeCorpse(Steps(m, w, 2), w);
  }

  // ---- one run for each rule ---------------------------------------------------------------

  /** What the lock directory looks like; two workers throughout, claims expire after 100 s. */
  function World(now: real, lock: LockFile, steal: StealFile, nextId: nat, a: Pc, b: Pc): State {
    State(now, 100.0, lock, steal, nextId, [a, b])
  }

  const FRESH: State := World(1.0, NoLock, NoSteal, 0, Idle, Idle)

  /** An expired lock, left by a worker that is gone. */
  const LEFT: LockFile := Lock(0, Record(0, 1.0), 1.0)
  const STALE: State := World(201.0, LEFT, NoSteal, 1, Idle, Idle)

  /** A `release` without a `claim` unlinks whatever is there. */
  lemma BlindReleaseBreaks() returns (evs: seq<Event>)
    ensures Refutes(Paired, FRESH, evs)
  {
    var m := Claimed(FRESH, 0);
    evs := ThenClaim(Paired, FRESH, [], FRESH, 0);
    evs := Then(Paired, FRESH, evs, m, Release(1, true));
    evs := ThenClaim(Paired, FRESH, evs, m.(lock := NoLock), 1);
  }

  /** A holder checks its token and pauses; its claim expires and a thief reaches its verdict. */
  lemma HolderPauses() returns (evs: seq<Event>)
    ensures Reaches(Expired, FRESH, evs,
              World(201.0, LEFT, Steal(1, 1, 201.0, Some(201.0)), 2, Releasing(0, 1.0), Corpse))
  {
    var m := Claimed(FRESH, 0);
    evs := ThenClaim(Expired, FRESH, [], FRESH, 0);
    evs := Then(Expired, FRESH, evs, m, Release(0, true));
    m := Next(m, Release(0, true));
    assert m == World(1.0, LEFT, NoSteal, 1, Releasing(0, 1.0), Idle);
    evs := Then(Expired, FRESH, evs, m, Tick(200.0));
    m := STALE.(ws := [Releasing(0, 1.0), Idle]);
    evs := ThenVerdict(Expired, FRESH, evs, m, 1);
  }

  /** A holder that checked its token in time but unlinks after its claim expired removes the thief's lock. */
  lemma LateReleaseBreaks() returns (evs: seq<Event>)
    ensures Refutes(Expired, FRESH, evs)
  {
    var m := World(201.0, LEFT, Steal(1, 1, 201.0, Some(201.0)), 2, Releasing(0, 1.0), Corpse);
    evs := HolderPauses();
    evs := ThenTakeOver(Expired, FRESH, evs, m, 1);
    m := Claimed(m, 1).(steal := NoSteal);
    evs := Then(Expired, FRESH, evs, m, Run(0, true));
    m := m.(lock := NoLock, ws := [Idle, Holding(2, 201.0)]);
    evs := ThenClaim(Expired, FRESH, evs, m, 0);
  }

  /** A clock stepped back while a thief stands before its unlink revives the claim it is about to remove. */
  lemma ClockStepBreaks() returns (evs: seq<Event>)
    ensures Refutes(Clock, FRESH, evs)
  {
    var m := Claimed(FRESH, 0);
    evs := ThenClaim(Clock, FRESH, [], FRESH, 0);
    evs := Then(Clock, FRESH, evs, m, Tick(200.0));
    m := STALE.(ws := [Holding(0, 1.0), Idle]);
    evs := ThenVerdict(Clock, FRESH, evs, m, 1);
    m := World(201.0, LEFT, Steal(1, 1, 201.0, Some(201.0)), 2, Holding(0, 1.0), Corpse);
    evs := Then(Clock, FRESH, evs, m, Tick(-200.0));
    m := m.(now := 1.0);
    evs := ThenTakeOver(Clock, FRESH, evs, m, 1);
  }

  /** Two workers hold the same verdict under two steal files: both unlink, both hold. */
  lemma BothTakeOver(broken: Rule, s: State, before: seq<Event>, m: State) returns (evs: seq<Event>)
    requires Init(s) && Reaches(broken, s, before, m) && m.ws == [Corpse, Corpse] && m.staleAfter == 100.0
    ensures Refutes(broken, s, evs)
  {
    evs := ThenTakeOver(broken, s, before, m, 1);
    var m1 := Claimed(m, 1).(steal := NoSteal);
    assert m1.ws == [Corpse, Holding(m.nextId, m.now)];
    evs := ThenTakeOver(broken, s, evs, m1, 0);
    assert Claimed(m1, 0).ws == [Holding(m.nextId + 1, m.now), Holding(m.nextId, m.now)];
  }

  /** `w` walks up to a steal file and reads its stamp. */
  lemma ThenProbe(broken: Rule, s: State, before: seq<Event>, m: State, w: nat) returns (after: seq<Event>)
    requires Reaches(broken, s, before, m) && w < 2 == |m.ws| && m.ws[w].Idle? && !m.ws[1 - w].Writing?
    requires m.lock == LEFT && m.staleAfter == 100.0 && m.now > 101.0
    requires m.steal.Steal? && m.steal.stamp.Some? && m.steal.stamp.value > 0.0
    ensures Reaches(broken, s, after, m.(ws := m.ws[w := AgeClock(Guard, m.steal.stamp.value)]))
  {
    after := Then(broken, s, before, m, Call(w));
    var m1 := Next(m, Call(w));
    after := ThenTurns(broken, s, after, m1, w, 4);
    var m3 := Next(Next(m1, Run(w, true)), Run(w, true));
    assert m3 == m.(ws := m.ws[w := AgeClock(Outer, 1.0)]);
    var m4 := Next(m3, Run(w, true));
    assert m4 == m.(ws := m.ws[w := AgeRead(Guard)]);
    assert Steps(m4, w, 1) == Steps(m1, w, 4);
  }

  /** A thief dies in the guard, and two workers come to clear its steal file. */
  lemma DeadThiefFound() returns (evs: seq<Event>)
    ensures Reaches(Survive, STALE, evs, World(271.0, LEFT, Steal(1, 1, 201.0, Some(201.0)), 2, StealUnlinkOld, Idle))
  {
    evs := ThenVerdict(Survive, STALE, [], STALE, 1);
    var was := Steal(1, 1, 201.0, Some(201.0));
    evs := Then(Survive, STALE, evs, World(201.0, LEFT, was, 2, Idle, Corpse), Crash(1));
    evs := Then(Survive, STALE, evs, World(201.0, LEFT, was, 2, Idle, Idle), Tick(70.0));
    evs := ThenProbe(Survive, STALE, evs, World(271.0, LEFT, was, 2, Idle, Idle), 0);
    evs := Then(Survive, STALE, evs, World(271.0, LEFT, was, 2, AgeClock(Guard, 201.0), Idle), Run(0, true));
  }

  /** A thief that dies in the guard leaves a steal file that two workers then clear, one after the other. */
  lemma DeadThiefBreaks() returns (evs: seq<Event>)
    ensures Refutes(Survive, STALE, evs)
  {
    var was := Steal(1, 1, 201.0, Some(201.0));
    evs := DeadThiefFound();
    evs := ThenProbe(Survive, STALE, evs, World(271.0, LEFT, was, 2, StealUnlinkOld, Idle), 1);
    evs := Then(Survive, STALE, evs, World(271.0, LEFT, was, 2, StealUnlinkOld, AgeClock(Guard, 201.0)), Run(1, true));
    evs := ThenBreakIn(Survive, STALE, evs, World(271.0, LEFT, was, 2, StealUnlinkOld, StealUnlinkOld), 1);
    var m := World(271.0, LEFT, Steal(2, 1, 271.0, Some(271.0)), 3, StealUnlinkOld, Corpse);
    evs := ThenBreakIn(Survive, STALE, evs, m, 0);
    m := World(271.0, LEFT, Steal(3, 0, 271.0, Some(271.0)), 4, Corpse, Corpse);
    evs := BothTakeOver(Survive, STALE, evs, m);
  }

  /** A thief that is merely slow in the guard is taken for dead. */
  lemma SlowThiefBreaks() returns (evs: seq<Event>)
    ensures Refutes(Quick, STALE, evs)
  {
    evs := ThenVerdict(Quick, STALE, [], STALE, 1);
    var was := Steal(1, 1, 201.0, Some(201.0));
    evs := Then(Quick, STALE, evs, World(201.0, LEFT, was, 2, Idle, Corpse), Tick(70.0));
    evs := ThenProbe(Quick, STALE, evs, World(271.0, LEFT, was, 2, Idle, Corpse), 0);
    evs := Then(Quick, STALE, evs, World(271.0, LEFT, was, 2, AgeClock(Guard, 201.0), Corpse), Run(0, true));
    evs := ThenBreakIn(Quick, STALE, evs, World(271.0, LEFT, was, 2, StealUnlinkOld, Corpse), 0);
    evs := BothTakeOver(Quick, STALE, evs, World(271.0, LEFT, Steal(2, 0, 271.0, Some(271.0)), 3, Corpse, Corpse));
  }

  /** One worker has read the stamp of a steal file that is gone 70 s later. */
  lemma ProbePauses() returns (evs: seq<Event>)
    ensures Reaches(Probe, STALE, evs, World(271.0, LEFT, NoSteal, 2, AgeClock(Guard, 201.0), Idle))
  {
    evs := ThenVerdict(Probe, STALE, [], STALE, 1);
    var was := Steal(1, 1, 201.0, Some(201.0));
    evs := ThenProbe(Probe, STALE, evs, World(201.0, LEFT, was, 2, Idle, Corpse), 0);
    var p := AgeClock(Guard, 201.0);
    evs := Then(Probe, STALE, evs, World(201.0, LEFT, was, 2, p, Corpse), Run(1, false));
    evs := Then(Probe, STALE, evs, World(201.0, LEFT, was, 2, p, Leaving(false)), Run(1, true));
    evs := Then(Probe, STALE, evs, World(201.0, LEFT, NoSteal, 2, p, Idle), Tick(70.0));
  }

  /**
   A worker that pauses between the stamp and the clock judges a steal file that is no longer there,
   and unlinks the new one.
   */
  lemma SlowProbeBreaks() returns (evs: seq<Event>)
    ensures Refutes(Probe, STALE, evs)
  {
    var p, newer := AgeClock(Guard, 201.0), Steal(2, 1, 271.0, Some(271.0));
    evs := ProbePauses();
    evs := ThenVerdict(Probe, STALE, evs, World(271.0, LEFT, NoSteal, 2, p, Idle), 1);
    evs := Then(Probe, STALE, evs, World(271.0, LEFT, newer, 3, p, Corpse), Run(0, true));
    evs := ThenBreakIn(Probe, STALE, evs, World(271.0, LEFT, newer, 3, StealUnlinkOld, Corpse), 0);
    evs := BothTakeOver(Probe, STALE, evs, World(271.0, LEFT, Steal(3, 0, 271.0, Some(271.0)), 4, Corpse, Corpse));
  }

  /** A claim is refused while another is held, and the holder lets go. */
  lemma EmptyLockFirst() returns (evs: seq<Event>)
    ensures Reaches(Atomic, FRESH, evs, World(1.0, LEFT, NoSteal, 1, Releasing(0, 1.0), AgeRead(Outer)))
  {
    var r := Atomic;
    evs := ThenClaim(r, FRESH, [], FRESH, 0);
    evs := Then(r, FRESH, evs, World(1.0, LEFT, NoSteal, 1, Holding(0, 1.0), Idle), Call(1));
    evs := Then(r, FRESH, evs, World(1.0, LEFT, NoSteal, 1, Holding(0, 1.0), Creating(1.0, false)), Run(1, true));
    evs := Then(r, FRESH, evs, World(1.0, LEFT, NoSteal, 1, Holding(0, 1.0), AgeRead(Outer)), Release(0, true));
  }

  /** The refused worker finds no lock and takes the guard. */
  lemma EmptyLockSecond() returns (evs: seq<Event>)
    ensures Reaches(Atomic, FRESH, evs, World(1.0, NoLock, Steal(1, 1, 1.0, Some(1.0)), 2, Idle, Inspecting))
  {
    var r := Atomic;
    evs := EmptyLockFirst();
    evs := Then(r, FRESH, evs, World(1.0, LEFT, NoSteal, 1, Releasing(0, 1.0), AgeRead(Outer)), Run(0, true));
    evs := Then(r, FRESH, evs, World(1.0, NoLock, NoSteal, 1, Idle, AgeRead(Outer)), Run(1, true));
    evs := Then(r, FRESH, evs, World(1.0, NoLock, NoSteal, 1, Idle, AgeRead(Guard)), Run(1, true));
    evs := Then(r, FRESH, evs, World(1.0, NoLock, NoSteal, 1, Idle, StealOpening), Run(1, true));
    evs := Then(r, FRESH, evs, World(1.0, NoLock, Steal(1, 1, 1.0, None), 2, Idle, StealWriting(1)), Run(1, true));
  }

  /** A lock file seen empty sends the thief down the branch that unlinks without comparing tokens. */
  lemma EmptyLockBreaks() returns (evs: seq<Event>)
    ensures Refutes(Atomic, FRESH, evs)
  {
    var r, g := Atomic, Steal(1, 1, 1.0, Some(1.0));
    evs := EmptyLockSecond();
    evs := Then(r, FRESH, evs, World(1.0, NoLock, g, 2, Idle, Inspecting), Call(0));
    evs := Then(r, FRESH, evs, World(1.0, NoLock, g, 2, Creating(1.0, false), Inspecting), Run(0, true));
    evs := Then(r, FRESH, evs, World(1.0, Lock(2, Unparseable, 1.0), g, 3, Writing(2, 1.0), Inspecting), Run(1, true));
    evs := Then(r, FRESH, evs, World(1.0, Lock(2, Unparseable, 1.0), g, 3, Writing(2, 1.0), AgeRead(Inner)),
        Run(0, true));
    evs := EmptyLockThird(evs);
  }

  lemma EmptyLockThird(before: seq<Event>) returns (evs: seq<Event>)
    requires Reaches(Atomic, FRESH, before,
               World(1.0, Lock(2, Record(2, 1.0), 1.0), Steal(1, 1, 1.0, Some(1.0)), 3, Holding(2, 1.0),
               AgeRead(Inner)))
    ensures Refutes(Atomic, FRESH, evs)
  {
    var r := Atomic;
    var g := Steal(1, 1, 1.0, Some(1.0));
    evs := Then(r, FRESH, before, World(1.0, Lock(2, Record(2, 1.0), 1.0), g, 3, Holding(2, 1.0), AgeRead(Inner)),
        Release(0, true));
    evs := Then(r, FRESH, evs, World(1.0, Lock(2, Record(2, 1.0), 1.0), g, 3, Releasing(2, 1.0), AgeRead(Inner)),
        Run(0, true));
    evs := Then(r, FRESH, evs, World(1.0, NoLock, g, 3, Idle, AgeRead(Inner)), Run(1, true));
    var m := World(1.0, NoLock, g, 3, Idle, Corpse);
    evs := ThenClaim(r, FRESH, evs, m, 0);
    evs := ThenTakeOver(r, FRESH, evs, Claimed(m, 0), 1);
  }

  /** Every one of the seven hypotheses is needed. */
  lemma EveryRuleIsNeeded(r: Rule)
    ensures exists s, evs :: Refutes(r, s, evs)
  {
    match r
    case Atomic => var evs := EmptyLockBreaks();
    case Expired => var evs := LateReleaseBreaks();
    case Survive => var evs := DeadThiefBreaks();
    case Quick => var evs := SlowThiefBreaks();
    case Probe => var evs := SlowProbeBreaks();
    case Clock => var evs := ClockStepBreaks();
    case Paired => var evs := BlindReleaseBreaks();
  }
}
