/**
 The queue consumer of prospector/consumer.py and the one reader of its heartbeat: a loop under
 rails and backoffs, and a classification of what it left on disk. What the guard, the decay sweep
 and the drain answer in each cycle, how long each takes and which heartbeats reach the disk is
 arbitrary.
 */
module Consumer {
  import opened Common

  type Span = r: real | 0.0 <= r

  datatype Phase = Starting | Blocked | Draining | Error | Skipped | Idle | Drained | Stopped

  /** One heartbeat as written; a beat whose stamp does not parse has no `ts`. */
  datatype Beat = Beat(phase: Phase, host: string, pid: nat, ts: Option<real>, nextCheck: Option<real>)

  datatype Attempt = Attempt(beat: Beat, written: bool)

  const LATE_GRACE := 180.0
  const NO_NEXT_CHECK_STALE := 3600.0

  // ---- the reader --------------------------------------------------------------------------

  datatype File = Missing | Garbled | Holds(beat: Beat)

  datatype Health = Running | AtRail | Left | Dead | Late | Unknown

  /** `probe` is what the process table says about the beat's pid on this host, None when it cannot tell. */
  function Liveness(file: File, now: real, here: string, probe: Option<bool>): Health {
    if !file.Holds? then Unknown
    else
      var beat := file.beat;
      var alive := if beat.host != "" && beat.host != here then None else probe;
      if beat.phase.Stopped? then Left
      else if alive == Some(false) then Dead
      else if beat.ts.Some? && beat.nextCheck.Some? && now > beat.nextCheck.value + LATE_GRACE then Late
      else if beat.ts.Some? && beat.nextCheck.None? && now - beat.ts.value > NO_NEXT_CHECK_STALE then Late
      else if beat.phase.Blocked? || beat.phase.Skipped? then AtRail
      else Running
  }

  /** The moment from which a beat counts as late. */
  function Deadline(b: Beat): Option<real> {
    if b.ts.None? then None
    else if b.nextCheck.Some? then Some(b.nextCheck.value + LATE_GRACE)
    else Some(b.ts.value + NO_NEXT_CHECK_STALE)
  }

  /** A beat from another host is never read as a death. */
  lemma ForeignIsNeverDead(b: Beat, now: real, here: string, probe: Option<bool>)
    requires b.host != "" && b.host != here
    ensures Liveness(Holds(b), now, here, probe) != Dead
  {
  }

  /**
   A beat that is no farewell and whose process is not known to be gone reads as late exactly past
   its own deadline; one without a stamp never does.
   */
  lemma LatePastItsDeadline(b: Beat, now: real, here: string, probe: Option<bool>)
    requires !b.phase.Stopped? && (probe != Some(false) || (b.host != "" && b.host != here))
    ensures Liveness(Holds(b), now, here, probe) == Late <==> Deadline(b).Some? && now > Deadline(b).value
  {
  }

  // ---- the writer: what one run leaves behind ----------------------------------------------

  /** The file after some heartbeats: the last one that was written, or what was there before. */
  function Disk(before: File, beats: seq<Attempt>): File {
    if beats == [] then before
    else if beats[|beats| - 1].written then Holds(beats[|beats| - 1].beat)
    else Disk(before, beats[..|beats| - 1])
  }

  /** The heartbeats of a run that finished: all from one process, the last and only the last saying so. */
  predicate Whole(beats: seq<Attempt>, host: string, pid: nat) {
    && |beats| >= 2
    && (forall i :: 0 <= i < |beats| ==>
        beats[i].beat.host == host && beats[i].beat.pid == pid && beats[i].beat.ts.Some?)
    && (forall i :: 0 <= i < |beats| ==> (beats[i].beat.phase.Stopped? <==> i == |beats| - 1))
  }

  /** The heartbeats of a run that is still going: all from one process, and none the last. */
  predicate Opening(beats: seq<Attempt>, host: string, pid: nat) {
    forall i :: 0 <= i < |beats| ==>
      beats[i].beat.host == host && beats[i].beat.pid == pid && beats[i].beat.ts.Some? && !beats[i].beat.phase.Stopped?
  }

  predicate SomeWritten(beats: seq<Attempt>) { exists i :: 0 <= i < |beats| && beats[i].written }

  lemma {:induction false} DiskHolds(before: File, beats: seq<Attempt>) returns (i: nat)
    requires SomeWritten(beats)
    ensures i < |beats| && beats[i].written && Disk(before, beats) == Holds(beats[i].beat)
    ensures forall k :: i < k < |beats| ==> !beats[k].written
    decreases |beats|
  {
    i := |beats| - 1;
    if !beats[i].written { i := DiskHolds(before, beats[..i]); }
  }

  /**
   A consumer that dies anywhere before its final beat, having written at least one, reads as dead on
   its own host.
   */
  lemma CrashReadsDead(before: File, beats: seq<Attempt>, host: string, pid: nat, crash: nat, now: real)
    requires crash <= |beats| && SomeWritten(beats[..crash])
    requires Opening(beats, host, pid) || (Whole(beats, host, pid) && crash < |beats|)
    ensures Liveness(Disk(before, beats[..crash]), now, host, Some(false)) == Dead
  {
    var i := DiskHolds(before, beats[..crash]);
  }

  /** A finished run reads as stopped exactly when its final beat was written; otherwise, once gone, as dead. */
  lemma FinishReadsStopped(before: File, beats: seq<Attempt>, host: string, pid: nat, now: real, here: string,
      probe: Option<bool>)
    requires Whole(beats, host, pid) && SomeWritten(beats)
    ensures Liveness(Disk(before, beats), now, here, probe) == Left <==> beats[|beats| - 1].written
    ensures !beats[|beats| - 1].written ==> Liveness(Disk(before, beats), now, host, Some(false)) == Dead
  {
    var i := DiskHolds(before, beats);
  }

  /** Every beat comes before the one ahead of it is late. */
  predicate InTime(beats: seq<Attempt>) { forall i: nat :: i + 1 < |beats| ==> Follows(beats, i) }

  /** Beat i + 1 comes no earlier than beat i and no later than beat i promises. */
  predicate Follows(beats: seq<Attempt>, i: nat)
    requires i + 1 < |beats|
  {
    var a, b := beats[i].beat, beats[i + 1].beat;
    a.ts.Some? && b.ts.Some? && a.ts.value <= b.ts.value <= Deadline(a).value
  }

  predicate AtRailPhase(b: Beat) { b.phase.Blocked? || b.phase.Skipped? }

  /**
   A live consumer reads, at any moment after beat i of its run, by the last beat that reached the
   disk: as late exactly past that beat's deadline, and before it as held by a rail or as running by
   that beat's phase. While the beats come in time and reach the disk it is never late.
   */
  lemma LiveReadsItsPhase(before: File, beats: seq<Attempt>, host: string, pid: nat, i: nat, now: real, here: string,
      probe: Option<bool>) returns (j: nat)
    requires Opening(beats, host, pid) || Whole(beats, host, pid)
    requires i < |beats| && !beats[i].beat.phase.Stopped? && SomeWritten(beats[..i + 1])
    requires probe != Some(false) || (host != "" && host != here)
    ensures j <= i && beats[j].written && beats[j].beat.ts.Some? && forall k :: j < k <= i ==> !beats[k].written
    ensures var seen := Liveness(Disk(before, beats[..i + 1]), now, here, probe);
            var late := now > Deadline(beats[j].beat).value;
            && (seen == Late <==> late)
            && (seen == AtRail <==> !late && AtRailPhase(beats[j].beat))
            && (seen == Running <==> !late && !AtRailPhase(beats[j].beat))
    ensures InTime(beats) && i + 1 < |beats| && now <= beats[i + 1].beat.ts.value && beats[i].written ==>
              j == i && Liveness(Disk(before, beats[..i + 1]), now, here, probe) != Late
  {
    j := DiskHolds(before, beats[..i + 1]);
    assert forall k :: 0 <= k <= i ==> beats[..i + 1][k] == beats[k];
    assert InTime(beats) && i + 1 < |beats| ==> Follows(beats, i);
  }

  // ---- the loop, cycle by cycle --------------------------------------------------------------

  datatype Sweep = NotDue | Broke | Swept

  datatype Drain = Raised | Returned(skipped: bool, attempted: nat, resumed: nat, leased: nat)

  /**
   What one cycle meets: whether a stop was asked for before it, what the guard says, what the sweep
   and the drain do, how long everything takes, and which of its beats reach the disk.
   */
  datatype Cycle = Cycle(stop: bool, guard: Option<string>, sweep: Sweep, drain: Drain,
                         guardTook: Span, sweepTook: Span, drainTook: Span, lag: Span, wrote: bool, wroteAgain: bool)

  datatype Conf = Conf(blockedFor: Span, idleFor: Span, busyFor: Span)

  datatype Totals = Totals(passes: nat, attempted: nat, resumed: nat, leased: nat, blocked: nat, idle: nat,
      errors: nat, sweeps: nat)

  /** Why the model of a run ends; `StillTurning` is an unbounded run looked at before any stop. */
  datatype Why = Asked | PassesSpent | RailHeld | StillTurning

  /** A refusal needs a reason: the loop takes an empty one for permission. */
  predicate Refused(c: Cycle) { c.guard.Some? && c.guard.value != "" }

  datatype Kind = AtGuard | Failing | BySkip | Empty | Working

  function KindOf(c: Cycle): Kind {
    if Refused(c) then AtGuard
    else if c.drain.Raised? then Failing
    else if c.drain.skipped then BySkip
    else if c.drain.attempted == 0 then Empty
    else Working
  }

  function OneIf(b: bool): nat { if b then 1 else 0 }

  /** What one cycle adds to the totals. */
  function AfterCycle(t: Totals, c: Cycle): Totals {
    var k := KindOf(c);
    var ran := k != AtGuard;
    var back := ran && c.drain.Returned?;
    Totals(t.passes + OneIf(ran),
           t.attempted + (if back then c.drain.attempted else 0),
           t.resumed + (if back then c.drain.resumed else 0),
           t.leased + (if back then c.drain.leased else 0),
           t.blocked + OneIf(k == AtGuard || k == BySkip),
           t.idle + OneIf(k == Empty),
           t.errors + OneIf(k == Failing) + OneIf(ran && c.sweep.Broke?),
           t.sweeps + OneIf(ran && c.sweep.Swept?))
  }

  /** The totals after n cycles. */
  function Tally(script: nat -> Cycle, n: nat): Totals {
    if n == 0 then Totals(0, 0, 0, 0, 0, 0, 0, 0) else AfterCycle(Tally(script, n - 1), script(n - 1))
  }

  /** Refusals in a row at the end of n cycles. */
  function Streak(script: nat -> Cycle, n: nat): nat {
    if n == 0 || !Refused(script(n - 1)) then 0 else Streak(script, n - 1) + 1
  }

  function Count(script: nat -> Cycle, n: nat, k: Kind): nat {
    if n == 0 then 0 else Count(script, n - 1, k) + OneIf(KindOf(script(n - 1)) == k)
  }

  /** Every pass is accounted for once, and so is every block. */
  lemma {:induction false} PassesAddUp(script: nat -> Cycle, n: nat)
    ensures var t := Tally(script, n);
            && t.passes == Count(script, n, Failing) + Count(script, n, BySkip)
                           + Count(script, n, Empty) + Count(script, n, Working)
            && t.blocked == Count(script, n, AtGuard) + Count(script, n, BySkip)
            && n == t.passes + Count(script, n, AtGuard)
  {
    if n > 0 { PassesAddUp(script, n - 1); }
  }

  /** After n cycles the loop is still turning. */
  predicate Turning(script: nat -> Cycle, maxPasses: Option<int>, n: nat) {
    maxPasses.Some? ==> Tally(script, n).passes < maxPasses.value && Streak(script, n) <= maxPasses.value
  }

  /** All the cycles a run has been through were entered with the loop turning and no stop asked for. */
  predicate Lived(script: nat -> Cycle, maxPasses: Option<int>, n: nat) {
    n == 0 || (Lived(script, maxPasses, n - 1) && !script(n - 1).stop && Turning(script, maxPasses, n - 1))
  }

  /** p rounds of m cycles. */
  function Rounds(p: nat, m: nat): nat {
    if p == 0 then 0 else Rounds(p - 1, m) + m
  }

  lemma {:induction false} RoundsMultiply(p: nat, m: nat)
    ensures Rounds(p, m) == p * m
  {
    if p > 0 {
      RoundsMultiply(p - 1, m);
      assert p * m == (p - 1) * m + m;
    }
  }

  lemma {:induction false} RoundsGrow(p: nat, q: nat, m: nat)
    requires p <= q
    ensures Rounds(p, m) <= Rounds(q, m)
    decreases q - p
  {
    if p < q { RoundsGrow(p, q - 1, m); }
  }

  lemma {:induction false} CyclesByPasses(script: nat -> Cycle, k: nat, n: nat)
    requires Lived(script, Some(k), n)
    ensures n <= Rounds(Tally(script, n).passes, k + 1) + Streak(script, n) && Streak(script, n) <= k + 1
    ensures n > 0 ==> Tally(script, n - 1).passes < k
    decreases n
  {
    if n > 0 {
      CyclesByPasses(script, k, n - 1);
    }
  }

  lemma BoundedByRounds(script: nat -> Cycle, k: nat, n: nat)
    requires Lived(script, Some(k), n)
    ensures n <= Rounds(k, k + 1)
  {
    if n > 0 {
      var p := Tally(script, n - 1).passes;
      CyclesByPasses(script, k, n - 1);
      CyclesByPasses(script, k, n);
      RoundsGrow(p + 1, k, k + 1);
      assert n - 1 <= Rounds(p, k + 1) + k;
    }
  }

  /**
   A bounded consumer returns: k passes take at most k * (k + 1) cycles, whatever the guard, the
   drain and the sweep answer.
   */
  lemma BoundedRunReturns(script: nat -> Cycle, k: nat, n: nat)
    requires Lived(script, Some(k), n)
    ensures n <= k * (k + 1)
  {
    BoundedByRounds(script, k, n);
    RoundsMultiply(k, k + 1);
  }

  /** The phases one cycle writes. */
  function Told(k: Kind): seq<Phase> {
    match k
    case AtGuard => [Blocked]
    case Failing => [Draining, Error]
    case BySkip => [Draining, Skipped]
    case Empty => [Draining, Idle]
    case Working => [Draining, Drained]
  }

  function Story(script: nat -> Cycle, n: nat): seq<Phase> {
    if n == 0 then [Starting] else Story(script, n - 1) + Told(KindOf(script(n - 1)))
  }

  function PhasesOf(beats: seq<Attempt>): (r: seq<Phase>)
    ensures |r| == |beats|
  {
    if beats == [] then [] else PhasesOf(beats[..|beats| - 1]) + [beats[|beats| - 1].beat.phase]
  }

  /** The loop's own work around cycle i stays within what the beats promise. */
  predicate PromptAt(script: nat -> Cycle, i: nat) {
    && script(i).drainTook <= NO_NEXT_CHECK_STALE
    && script(i).lag + script(i + 1).guardTook + script(i + 1).sweepTook <= LATE_GRACE
  }

  ghost predicate Prompt(script: nat -> Cycle) {
    script(0).guardTook + script(0).sweepTook <= NO_NEXT_CHECK_STALE && forall i: nat :: PromptAt(script, i)
  }

  // ---- appending one heartbeat ----------------------------------------------------------------

  /** The last beat is out, and the next, not before `now`, may come as late as `due`. */
  predicate Open(beats: seq<Attempt>, now: real, due: real) {
    && InTime(beats) && beats != [] && beats[|beats| - 1].beat.ts.Some?
    && beats[|beats| - 1].beat.ts.value <= now && due <= Deadline(beats[|beats| - 1].beat).value
  }

  /** A beat at `at`, with what it promises. */
  function Stamp(phase: Phase, host: string, pid: nat, at: real, wait: Option<Span>, written: bool): Attempt {
    Attempt(Beat(phase, host, pid, Some(at), if wait.Some? then Some(at + wait.value) else None), written)
  }

  lemma BeatOn(beats: seq<Attempt>, host: string, pid: nat, before: File, a: Attempt)
    requires Opening(beats, host, pid) && a.beat.host == host && a.beat.pid == pid && a.beat.ts.Some?
    ensures PhasesOf(beats + [a]) == PhasesOf(beats) + [a.beat.phase]
    ensures Disk(before, beats + [a]) == if a.written then Holds(a.beat) else Disk(before, beats)
    ensures !a.beat.phase.Stopped? ==> Opening(beats + [a], host, pid)
    ensures a.beat.phase.Stopped? && beats != [] ==> Whole(beats + [a], host, pid)
  {
    assert (beats + [a])[..|beats|] == beats;
  }

  lemma BeatInTime(beats: seq<Attempt>, a: Attempt, at: real)
    requires Open(beats, at, at) && a.beat.ts == Some(at)
    ensures InTime(beats + [a])
  {
    forall i: nat | i + 1 < |beats + [a]| ensures Follows(beats + [a], i) {
      if i + 1 < |beats| { assert Follows(beats, i); }
    }
  }

  /** Before the first cycle: nothing counted, one beat told, and an hour before it counts as late. */
  lemma FirstBeat(script: nat -> Cycle, maxPasses: Option<int>, a: Attempt, now: real)
    requires a.beat.phase.Starting? && a.beat.ts == Some(now) && a.beat.nextCheck.None?
    ensures Story(script, 0) == [Starting] == PhasesOf([a])
    ensures Lived(script, maxPasses, 0) && Tally(script, 0) == Totals(0, 0, 0, 0, 0, 0, 0, 0) && Streak(script, 0) == 0
    ensures Open([a], now, now + NO_NEXT_CHECK_STALE)
  {
    assert PhasesOf([a][..0]) == [];
  }

  /** A beat now would be in time. */
  predicate InStep(beats: seq<Attempt>, now: real) { beats == [] || Open(beats, now, now) }

  lemma BeatInStep(beats: seq<Attempt>, a: Attempt, now: real)
    requires InStep(beats, now) && a.beat.ts == Some(now)
    ensures InTime(beats + [a])
  {
    if beats != [] { BeatInTime(beats, a, now); }
  }

  /** The process that writes: its clock, its file and, for the proofs, all it has written. */
  class Heartbeat {
    const host: string
    const pid: nat
    const before: File
    var clock: real
    var file: File
    ghost var beats: seq<Attempt>

    ghost predicate Valid() reads this { Opening(beats, host, pid) && file == Disk(before, beats) }

    constructor (host: string, pid: nat, before: File, clock: real)
      ensures Valid() && this.host == host && this.pid == pid && this.before == before && beats == [] &&
                this.clock == clock
    {
      this.host, this.pid, this.before := host, pid, before;
      this.clock, this.file, this.beats := clock, before, [];
    }

    /** Overwrites the file, or fails to and leaves it. */
    method Write(phase: Phase, wait: Option<Span>, written: bool)
      modifies `file, `beats
      ensures beats == old(beats) + [Stamp(phase, host, pid, clock, wait, written)]
      ensures file == if written then Holds(Stamp(phase, host, pid, clock, wait, written).beat) else old(file)
    {
      var a := Stamp(phase, host, pid, clock, wait, written);
      if a.written { file := Holds(a.beat); }
      beats := beats + [a];
    }

    /** What one more beat means for all of them. */
    lemma Beaten(was: seq<Attempt>, wasFile: File, phase: Phase, wait: Option<Span>, written: bool)
      requires Opening(was, host, pid) && wasFile == Disk(before, was)
      ensures var a := Stamp(phase, host, pid, clock, wait, written);
              && PhasesOf(was + [a]) == PhasesOf(was) + [phase]
              && Disk(before, was + [a]) == (if written then Holds(a.beat) else wasFile)
              && (!phase.Stopped? ==> Opening(was + [a], host, pid))
              && (phase.Stopped? && was != [] ==> Whole(was + [a], host, pid))
              && (InStep(was, clock) ==> InTime(was + [a]))
    {
      var a := Stamp(phase, host, pid, clock, wait, written);
      BeatOn(was, host, pid, before, a);
      if InStep(was, clock) { BeatInStep(was, a, clock); }
    }

    /** A beat that promises to be back after `wait`, and the sleep, which may overrun. */
    method Rest(phase: Phase, wait: Span, lag: Span, written: bool)
      requires Valid() && !phase.Stopped?
      modifies `clock, `file, `beats
      ensures Valid() && PhasesOf(beats) == old(PhasesOf(beats)) + [phase]
      ensures old(Open(beats, clock, clock)) ==> forall due: real :: clock <= due <= clock - lag + LATE_GRACE ==>
                Open(beats, clock, due)
    {
      Beaten(beats, file, phase, Some(wait), written);
      Write(phase, Some(wait), written);
      clock := clock + wait + lag;
    }

    /** The start of a pass: the decay sweep, the beat that says a drain is under way, and the drain itself. */
    method StartPass(c: Cycle, t: Totals) returns (u: Totals)
      requires Valid()
      modifies `clock, `file, `beats
      ensures Valid() && PhasesOf(beats) == old(PhasesOf(beats)) + [Draining]
      ensures u == t.(passes := t.passes + 1, errors := t.errors + OneIf(c.sweep.Broke?),
                sweeps := t.sweeps + OneIf(c.sweep.Swept?))
      ensures old(Open(beats, clock, clock + c.sweepTook)) && c.drainTook <= NO_NEXT_CHECK_STALE ==>
                Open(beats, clock, clock)
    {
      ghost var early := Open(beats, clock, clock + c.sweepTook);
      clock := clock + c.sweepTook;
      assert early ==> Open(beats, clock, clock);
      u := t;
      match c.sweep {
        case Broke => u := u.(errors := u.errors + 1);
        case Swept => u := u.(sweeps := u.sweeps + 1);
        case NotDue =>
      }
      u := u.(passes := u.passes + 1);
      Beaten(beats, file, Draining, None, c.wrote);
      Write(Draining, None, c.wrote);
      clock := clock + c.drainTook;
    }

    /** The end of a pass: what the drain answered, counted, told and slept on. */
    method EndPass(conf: Conf, c: Cycle, t: Totals) returns (u: Totals)
      requires Valid() && !Refused(c)
      modifies `clock, `file, `beats
      ensures Valid() && PhasesOf(beats) == old(PhasesOf(beats)) + Told(KindOf(c))[1..]
      ensures AfterCycle(t, c) == u.(passes := t.passes + 1, errors := u.errors + OneIf(c.sweep.Broke?),
                sweeps := t.sweeps + OneIf(c.sweep.Swept?))
      ensures u.passes == t.passes && u.sweeps == t.sweeps
      ensures old(Open(beats, clock, clock)) ==> forall due: real :: clock <= due <= clock - c.lag + LATE_GRACE ==>
                Open(beats, clock, due)
    {
      if c.drain.Raised? {
        u := t.(errors := t.errors + 1);
        Rest(Error, conf.blockedFor, c.lag, c.wroteAgain);
        return;
      }
      u := t.(attempted := t.attempted + c.drain.attempted, resumed := t.resumed + c.drain.resumed,
          leased := t.leased + c.drain.leased);
      if c.drain.skipped {
        u := u.(blocked := u.blocked + 1);
        Rest(Skipped, conf.blockedFor, c.lag, c.wroteAgain);
        return;
      }
      if c.drain.attempted == 0 {
        u := u.(idle := u.idle + 1);
        Rest(Idle, conf.idleFor, c.lag, c.wroteAgain);
        return;
      }
      Rest(Drained, conf.busyFor, c.lag, c.wroteAgain);
    }

    /** A pass that was let through. */
    method Pass(conf: Conf, c: Cycle, t: Totals) returns (u: Totals)
      requires Valid() && !Refused(c)
      modifies `clock, `file, `beats
      ensures Valid() && PhasesOf(beats) == old(PhasesOf(beats)) + Told(KindOf(c)) && u == AfterCycle(t, c)
      ensures old(Open(beats, clock, clock + c.sweepTook)) && c.drainTook <= NO_NEXT_CHECK_STALE ==>
                forall due: real :: clock <= due <= clock - c.lag + LATE_GRACE ==> Open(beats, clock, due)
    {
      ghost var told := PhasesOf(beats);
      u := StartPass(c, t);
      u := EndPass(conf, c, u);
      assert told + [Draining] + Told(KindOf(c))[1..] == told + Told(KindOf(c));
    }

    /** Where the loop stands when it comes round: n cycles done, and told. */
    ghost predicate Stands(script: nat -> Cycle, maxPasses: Option<int>, n: nat, t: Totals, streak: nat) reads this {
      && Valid() && beats != [] && PhasesOf(beats) == Story(script, n)
      && Lived(script, maxPasses, n) && t == Tally(script, n) && streak == Streak(script, n)
      && (maxPasses.Some? ==> streak <= maxPasses.value || streak == 0)
      && (Prompt(script) ==> Open(beats, clock, clock + script(n).guardTook + script(n).sweepTook))
    }

    /** The rail outlasted the budget in the last of n cycles. */
    ghost predicate HeldUp(script: nat -> Cycle, maxPasses: Option<int>, n: nat, t: Totals) reads this {
      && n > 0 && Valid() && beats != [] && PhasesOf(beats) == Story(script, n - 1) &&
          (Prompt(script) ==> Open(beats, clock, clock))
      && Lived(script, maxPasses, n) && t == Tally(script, n) && Reason(script, maxPasses, n, RailHeld)
    }

    ghost predicate Stage(script: nat -> Cycle, maxPasses: Option<int>, n: nat, t: Totals, streak: nat,
        held: bool) reads this {
      if held then HeldUp(script, maxPasses, n, t) else Stands(script, maxPasses, n, t, streak)
    }

    /** One cycle: the guard first, and a pass only when it lets through. */
    method Turn(conf: Conf, maxPasses: Option<int>, ghost script: nat -> Cycle, ghost n: nat, c: Cycle, t: Totals,
        streak: nat)
      returns (u: Totals, streak': nat, held: bool)
      requires Stage(script, maxPasses, n, t, streak, false) && c == script(n) && !c.stop
      requires maxPasses.Some? ==> t.passes < maxPasses.value
      modifies `clock, `file, `beats
      ensures held <==> Refused(c) && maxPasses.Some? && streak + 1 > maxPasses.value
      ensures Stage(script, maxPasses, n + 1, u, streak', held)
      ensures maxPasses.Some? && !held ==> streak' <= maxPasses.value
      ensures u.passes == t.passes + 1 || (u.passes == t.passes && streak' == streak + 1)
    {
      ghost var prompt := Prompt(script) && PromptAt(script, n);
      clock := clock + c.guardTook;
      if Refused(c) {
        u := t.(blocked := t.blocked + 1);
        streak' := streak + 1;
        held := maxPasses.Some? && streak' > maxPasses.value;
        if held { return; }
        Rest(Blocked, conf.blockedFor, c.lag, c.wrote);
        return;
      }
      streak', held := 0, false;
      u := Pass(conf, c, t);
    }

    /** The beat before the first cycle. */
    method Begin(maxPasses: Option<int>, ghost script: nat -> Cycle, written: bool) returns (t: Totals)
      requires Valid() && beats == []
      modifies `file, `beats
      ensures Stands(script, maxPasses, 0, t, 0)
    {
      t := Totals(0, 0, 0, 0, 0, 0, 0, 0);
      ghost var a := Stamp(Starting, host, pid, clock, None, written);
      Beaten(beats, file, Starting, None, written);
      Write(Starting, None, written);
      assert beats == [a];
      FirstBeat(script, maxPasses, a, clock);
    }

    /** The last beat. */
    method Close(ghost script: nat -> Cycle, ghost m: nat, written: bool)
      requires Valid() && beats != [] && PhasesOf(beats) == Story(script, m) &&
                 (Prompt(script) ==> Open(beats, clock, clock))
      modifies `file, `beats
      ensures Whole(beats, host, pid) && file == Disk(before, beats) && PhasesOf(beats) == Story(script, m) + [Stopped]
      ensures Prompt(script) ==> InTime(beats)
    {
      Beaten(beats, file, Stopped, None, written);
      Write(Stopped, None, written);
    }

    /**
     Cycles, until a stop, a spent budget or a rail that will not lift; an unbounded run is followed
     for `horizon` cycles.
     */
    method Loop(conf: Conf, maxPasses: Option<int>, script: nat -> Cycle, start: Totals, horizon: nat)
      returns (t: Totals, i: nat, streak: nat, held: bool)
      requires Stands(script, maxPasses, 0, start, 0)
      modifies `clock, `file, `beats
      ensures Stage(script, maxPasses, i, t, streak, held) == true
      ensures held || script(i).stop || Spent(maxPasses, t.passes, i, horizon)
    {
      t, i, streak, held := start, 0, 0, false;
      ghost var left, patience := Budget(maxPasses, horizon, 0, 0), Patience(maxPasses, 0);
      while !held && !script(i).stop && !Spent(maxPasses, t.passes, i, horizon)
        invariant maxPasses.None? ==> i <= horizon && !held
        invariant Stage(script, maxPasses, i, t, streak, held) == true
        invariant maxPasses.Some? && !held && t.passes < maxPasses.value ==> streak <= maxPasses.value
        invariant left == Budget(maxPasses, horizon, i, t.passes) && patience == Patience(maxPasses, streak)
        decreases left, patience
      {
        t, streak, held := Turn(conf, maxPasses, script, i, script(i), t, streak);
        i := i + 1;
        left, patience := Budget(maxPasses, horizon, i, t.passes), Patience(maxPasses, streak);
      }
    }

    /** The whole run: a beat before the first cycle, the cycles, and, unless the run is still turning, a last beat. */
    method RunConsumer(conf: Conf, maxPasses: Option<int>, script: nat -> Cycle, wroteFirst: bool, wroteLast: bool,
        horizon: nat)
      returns (t: Totals, why: Why, ghost n: nat)
      requires Valid() && beats == []
      modifies `clock, `file, `beats
      ensures t == Tally(script, n) && Lived(script, maxPasses, n) && Reason(script, maxPasses, n, why)
      ensures why == StillTurning ==> maxPasses.None? && n >= horizon
      ensures if why == StillTurning then Opening(beats, host, pid) else Whole(beats, host, pid)
      ensures file == Disk(before, beats)
      ensures PhasesOf(beats) == StoryOf(script, n, why)
      ensures Prompt(script) ==> InTime(beats)
    {
      var streak, held;
      t := Begin(maxPasses, script, wroteFirst);
      var i;
      t, i, streak, held := Loop(conf, maxPasses, script, t, horizon);
      n := i;
      why := if held then RailHeld else if script(i).stop then Asked else if maxPasses.Some? then PassesSpent
          else StillTurning;
      if why != StillTurning { Close(script, if held then i - 1 else i, wroteLast); }
    }
  }

  /** The run may turn no further: its passes are spent, or, without a budget, it has been followed far enough. */
  predicate Spent(maxPasses: Option<int>, passes: nat, n: nat, horizon: nat) {
    if maxPasses.Some? then passes >= maxPasses.value else n >= horizon
  }

  /**
   The phases told over a whole run: a refusal that ends the run has no beat of its own, and only a
   run that has ended says so.
   */
  function StoryOf(script: nat -> Cycle, n: nat, why: Why): seq<Phase>
    requires why == RailHeld ==> n > 0
  {
    match why
    case StillTurning => Story(script, n)
    case RailHeld => Story(script, n - 1) + [Stopped]
    case _ => Story(script, n) + [Stopped]
  }

  /** What a run has left: passes if it is bounded, cycles before the stop if it is not. */
  function Budget(maxPasses: Option<int>, horizon: nat, n: nat, passes: nat): nat {
    var left := if maxPasses.Some? then maxPasses.value - passes else horizon - n;
    if left < 0 then 0 else left
  }

  /** How many refusals in a row a bounded run still takes. */
  function Patience(maxPasses: Option<int>, streak: nat): nat {
    if maxPasses.Some? && maxPasses.value >= streak then maxPasses.value - streak + 1 else 0
  }

  /** Why a run of n cycles ended. */
  predicate Reason(script: nat -> Cycle, maxPasses: Option<int>, n: nat, why: Why) {
    match why
    case Asked => script(n).stop
    case PassesSpent => maxPasses.Some? && Tally(script, n).passes >= maxPasses.value
    case RailHeld => maxPasses.Some? && n > 0 && Streak(script, n) > maxPasses.value
    case StillTurning => maxPasses.None? && !script(n).stop
  }
}
