/**
 The circuit breaker of prospector/breaker.py: the class itself, its behaviour over whole traces of
 timed events, and what a trace says about how often a tripped provider is probed.
 */
module CircuitBreakers {
  import opened Common

  datatype Mode = CLOSED | OPEN | HALF_OPEN

  datatype Breaker = Breaker(threshold: nat, cooldown: real, mode: Mode, failures: nat, openedAt: real, probe: bool)

  /** Every call reads the clock at most once; `at` is what it read. */
  datatype Event = Allow(at: real) | Look(at: real) | Success(at: real) | Failure(hard: bool, at: real)

  /** `_maybe_half_open`. */
  function Settle(b: Breaker, at: real): Breaker {
    if b.mode.OPEN? && at - b.openedAt >= b.cooldown then b.(mode := HALF_OPEN, probe := false) else b
  }

  predicate Admits(b: Breaker, at: real) {
    var s := Settle(b, at);
    s.mode.CLOSED? || (s.mode.HALF_OPEN? && !s.probe)
  }

  function Step(b: Breaker, ev: Event): Breaker {
    match ev
    case Look(at) => Settle(b, at)
    case Allow(at) =>
      var s := Settle(b, at);
      if s.mode.HALF_OPEN? then s.(probe := true) else s
    case Success(_) => b.(mode := CLOSED, failures := 0, openedAt := 0.0, probe := false)
    case Failure(hard, at) =>
      var s := b.(probe := false, failures := b.failures + 1);
      if hard || b.mode.HALF_OPEN? || s.failures >= b.threshold then s.(mode := OPEN, openedAt := at) else s
  }

  function RunAll(b: Breaker, evs: seq<Event>): Breaker {
    if evs == [] then b else Step(RunAll(b, evs[..|evs| - 1]), evs[|evs| - 1])
  }

  /** How many of the requests in `evs` were let through. */
  function Admitted(b: Breaker, evs: seq<Event>): nat {
    if evs == [] then 0
    else
      var before := evs[..|evs| - 1];
      var ev := evs[|evs| - 1];
      Admitted(b, before) + if ev.Allow? && Admits(RunAll(b, before), ev.at) then 1 else 0
  }

  function New(threshold: nat, cooldown: real): Breaker {
    Breaker(threshold, cooldown, CLOSED, 0, 0.0, false)
  }

  // ---- what a trace says, without the breaker ------------------------------------------

  function FailuresSinceSuccess(evs: seq<Event>): nat {
    if evs == [] || evs[|evs| - 1].Success? then 0
    else FailuresSinceSuccess(evs[..|evs| - 1]) + if evs[|evs| - 1].Failure? then 1 else 0
  }

  predicate HardSinceSuccess(evs: seq<Event>) {
    evs != [] && !evs[|evs| - 1].Success?
    && (HardSinceSuccess(evs[..|evs| - 1]) || (evs[|evs| - 1].Failure? && evs[|evs| - 1].hard))
  }

  /** The clock does not run backwards, starts no earlier than `from` and has not passed `to`. */
  predicate Monotone(evs: seq<Event>, from: real, to: real) {
    if evs == [] then from <= to
    else evs[|evs| - 1].at <= to && Monotone(evs[..|evs| - 1], from, evs[|evs| - 1].at)
  }

  predicate Quiet(evs: seq<Event>) {
    forall i :: 0 <= i < |evs| ==> !evs[i].Success?
  }

  // ---- main results --------------------------------------------------------------------

  /** The breaker refines its history: the counter, the mode and the probe flag are functions of the trace. */
  lemma {:induction false} BreakerTracksHistory(threshold: nat, cooldown: real, evs: seq<Event>)
    requires threshold >= 1
    ensures var b := RunAll(New(threshold, cooldown), evs);
            && b.threshold == threshold && b.cooldown == cooldown
            && b.failures == FailuresSinceSuccess(evs)
            && (b.mode.CLOSED? <==> !HardSinceSuccess(evs) && FailuresSinceSuccess(evs) < threshold)
            && (b.probe ==> b.mode.HALF_OPEN?)
    decreases evs
  {
    if evs != [] { BreakerTracksHistory(threshold, cooldown, evs[..|evs| - 1]); }
  }

  /**
   Half-opening is lazy, but a monotone clock makes that invisible to requests: only elapsed time and
   the probe decide.
   */
  lemma {:induction false} AdmissionIsByTheClock(threshold: nat, cooldown: real, evs: seq<Event>, from: real, at: real)
    requires threshold >= 1 && Monotone(evs, from, at)
    ensures var b := RunAll(New(threshold, cooldown), evs);
            && (b.mode.HALF_OPEN? ==> at - b.openedAt >= cooldown)
            && (Admits(b, at) <==> b.mode.CLOSED? || (!b.probe && at - b.openedAt >= cooldown))
    decreases evs
  {
    BreakerTracksHistory(threshold, cooldown, evs);
    if evs != [] {
      var last := evs[|evs| - 1];
      AdmissionIsByTheClock(threshold, cooldown, evs[..|evs| - 1], from, last.at);
      BreakerTracksHistory(threshold, cooldown, evs[..|evs| - 1]);
    }
  }

  /** k cooldowns. */
  function Cooldowns(k: nat, cooldown: real): real {
    if k == 0 then 0.0 else Cooldowns(k - 1, cooldown) + cooldown
  }

  lemma {:induction false} CooldownsMultiply(k: nat, cooldown: real)
    ensures Cooldowns(k, cooldown) == k as real * cooldown
  {
    if k > 0 {
      CooldownsMultiply(k - 1, cooldown);
      var x := (k - 1) as real;
      assert k as real == x + 1.0;
      assert (x + 1.0) * cooldown == x * cooldown + cooldown;
    }
  }

  /** What k admissions have already cost in time, mode by mode. */
  predicate Spent(b: Breaker, k: nat, t0: real, t: real) {
    t0 <= t && Cooldowns(k, b.cooldown) <= t - t0 &&
    match b.mode
    case CLOSED => false
    case OPEN => t0 <= b.openedAt <= t && Cooldowns(k, b.cooldown) <= b.openedAt - t0
    case HALF_OPEN => b.probe || Cooldowns(k + 1, b.cooldown) <= t - t0
  }

  lemma SpentStep(b: Breaker, k: nat, t0: real, ev: Event)
    requires Spent(b, k, t0, ev.at) && !ev.Success? && (b.probe ==> b.mode.HALF_OPEN?)
    ensures Spent(Step(b, ev), if ev.Allow? && Admits(b, ev.at) then k + 1 else k, t0, ev.at)
    ensures Step(b, ev).probe ==> Step(b, ev).mode.HALF_OPEN?
  {
    assert Cooldowns(k + 1, b.cooldown) == Cooldowns(k, b.cooldown) + b.cooldown;
  }

  lemma {:induction false} SpentGrows(b: Breaker, evs: seq<Event>, t0: real, t: real)
    requires b.mode.OPEN? && b.openedAt == t0 && !b.probe
    requires Quiet(evs) && Monotone(evs, t0, t)
    ensures Spent(RunAll(b, evs), Admitted(b, evs), t0, t) && RunAll(b, evs).cooldown == b.cooldown
    ensures RunAll(b, evs).probe ==> RunAll(b, evs).mode.HALF_OPEN?
    decreases evs
  {
    if evs != [] {
      var ev := evs[|evs| - 1];
      var before := evs[..|evs| - 1];
      SpentGrows(b, before, t0, ev.at);
      SpentStep(RunAll(b, before), Admitted(b, before), t0, ev);
    }
  }

  lemma CooldownsBound(k: nat, cooldown: real, time: real)
    requires Cooldowns(k, cooldown) <= time
    ensures k as real * cooldown <= time
  {
    CooldownsMultiply(k, cooldown);
  }

  lemma SpentInAll(b: Breaker, evs: seq<Event>, t0: real, t: real)
    requires b.mode.OPEN? && b.openedAt == t0 && !b.probe
    requires Quiet(evs) && Monotone(evs, t0, t)
    ensures Cooldowns(Admitted(b, evs), b.cooldown) <= t - t0
  {
    SpentGrows(b, evs, t0, t);
  }

  /**
   Probe rate bound: after a trip at `t0` and with no success since, k admissions by time t take at
   least k cooldowns.
   */
  lemma ProbesArePaced(b: Breaker, evs: seq<Event>, t0: real, t: real) returns (k: nat)
    requires b.mode.OPEN? && b.openedAt == t0 && !b.probe
    requires Quiet(evs) && Monotone(evs, t0, t)
    ensures k == Admitted(b, evs) && k as real * b.cooldown <= t - t0
  {
    k := Admitted(b, evs);
    SpentInAll(b, evs, t0, t);
    CooldownsBound(k, b.cooldown, t - t0);
  }

  /**
   One request per half-open period: until a result is recorded a tripped breaker lets at most one
   through, and none once a probe is out.
   */
  lemma {:induction false} OneProbePerPeriod(b: Breaker, evs: seq<Event>)
    requires !b.mode.CLOSED? && (b.probe ==> b.mode.HALF_OPEN?)
    requires forall i :: 0 <= i < |evs| ==> evs[i].Allow? || evs[i].Look?
    ensures Admitted(b, evs) <= 1 && (b.probe ==> Admitted(b, evs) == 0)
    ensures var m := RunAll(b, evs); !m.mode.CLOSED? && (m.probe ==> m.mode.HALF_OPEN?)
    ensures RunAll(b, evs).probe <==> b.probe || Admitted(b, evs) == 1
    decreases evs
  {
    if evs != [] { OneProbePerPeriod(b, evs[..|evs| - 1]); }
  }

  /**
   Reading `state` is not always harmless: it changes what the next event does exactly when that
   event is a soft, sub-threshold failure of a breaker whose cooldown has run out unobserved.
   */
  lemma LookingMatters(b: Breaker, at: real, ev: Event)
    requires at <= ev.at && !(b.probe && b.mode.OPEN?)
    ensures Step(Step(b, Look(at)), ev) == Step(b, ev) <==>
            !(ev.Failure? && !ev.hard && b.failures + 1 < b.threshold && b.mode.OPEN? && at - b.openedAt >= b.cooldown
              && ev.at != b.openedAt)
  {
    var s := Step(b, Look(at));
    if s != b {
      assert s == b.(mode := HALF_OPEN);
      if ev.Failure? { assert Step(s, ev) == b.(failures := b.failures + 1, mode := OPEN, openedAt := ev.at); }
    }
  }

  /**
   It happens to a breaker in use: tripped at 0 with a cooldown of 60 s, it meets a late soft failure
   at 61. If somebody read its state at 60 it trips again and waits until 121; if nobody did, the
   cooldown is over.
   */
  lemma LookingHappens()
    ensures var b := New(3, 60.0);
            var seen := RunAll(b, [Failure(true, 0.0), Look(60.0), Failure(false, 61.0)]);
            var unseen := RunAll(b, [Failure(true, 0.0), Failure(false, 61.0)]);
            && seen.openedAt == 61.0 && !Admits(seen, 120.0)
            && unseen.openedAt == 0.0 && Admits(unseen, 61.0)
  {
    var b := New(3, 60.0);
    var trip, look, late := Failure(true, 0.0), Look(60.0), Failure(false, 61.0);
    assert [trip, look, late][..2] == [trip, look] && [trip, look][..1] == [trip] && [trip, late][..1] == [trip];
    assert [trip][..0] == [];
    assert RunAll(b, [trip]) == Step(b, trip);
    assert RunAll(b, [trip, look]) == Step(Step(b, trip), look);
  }

  // ---- the class ---------------------------------------------------------------------------

  class CircuitBreaker {
    const failureThreshold: nat
    const cooldown: real
    var mode: Mode
    var consecutiveFailures: nat
    var openedAt: Option<real>
    var probeInFlight: bool
    ghost var trace: seq<Event>

    /** The fields as a value; an unset `openedAt` reads as 0. */
    ghost function View(): Breaker
      reads this
    {
      Breaker(failureThreshold, cooldown, mode, consecutiveFailures,
              if openedAt.Some? then openedAt.value else 0.0, probeInFlight)
    }

    ghost predicate Valid()
      reads this
    {
      && failureThreshold >= 1 && (mode.OPEN? ==> openedAt.Some?)
      && View() == RunAll(New(failureThreshold, cooldown), trace)
    }

    constructor (failureThreshold: nat, cooldown: real)
      requires failureThreshold >= 1
      ensures Valid() && trace == [] && View() == New(failureThreshold, cooldown)
    {
      this.failureThreshold := failureThreshold;
      this.cooldown := cooldown;
      mode, consecutiveFailures, openedAt, probeInFlight := CLOSED, 0, None, false;
      trace := [];
    }

    /** The step has been taken; write it down. */
    ghost method Log(ev: Event)
      requires View() == Step(RunAll(New(failureThreshold, cooldown), trace), ev)
      requires failureThreshold >= 1 && (mode.OPEN? ==> openedAt.Some?)
      modifies this`trace
      ensures Valid() && trace == old(trace) + [ev]
    {
      assert (trace + [ev])[..|trace|] == trace;
      trace := trace + [ev];
    }

    method MaybeHalfOpen(now: real)
      requires Valid()
      modifies this`mode, this`probeInFlight
      ensures View() == Settle(old(View()), now) && (mode.OPEN? ==> openedAt.Some?)
    {
      if mode.OPEN? && openedAt.Some? && now - openedAt.value >= cooldown {
        mode := HALF_OPEN;
        probeInFlight := false;
      }
    }

    /** The `state` property. */
    method CurrentMode(now: real) returns (m: Mode)
      requires Valid()
      modifies this
      ensures Valid() && trace == old(trace) + [Look(now)]
      ensures View() == Step(old(View()), Look(now)) && m == mode
    {
      MaybeHalfOpen(now);
      Log(Look(now));
      m := mode;
    }

    /** `allow`: closed always, half-open once, and under a monotone clock never within a cooldown of the trip. */
    method AllowRequest(now: real) returns (go: bool)
      requires Valid()
      modifies this
      ensures Valid() && trace == old(trace) + [Allow(now)]
      ensures View() == Step(old(View()), Allow(now)) && go == Admits(old(View()), now)
      ensures forall from :: Monotone(old(trace), from, now) ==>
                (go <==> old(mode).CLOSED? || (!old(probeInFlight) && now - old(View()).openedAt >= cooldown))
    {
      forall from | Monotone(trace, from, now) {
        AdmissionIsByTheClock(failureThreshold, cooldown, trace, from, now);
      }
      MaybeHalfOpen(now);
      go := mode.CLOSED? || (mode.HALF_OPEN? && !probeInFlight);
      if mode.HALF_OPEN? && !probeInFlight {
        probeInFlight := true;
      }
      Log(Allow(now));
    }

    method RecordSuccess(now: real)
      requires Valid()
      modifies this
      ensures Valid() && trace == old(trace) + [Success(now)]
      ensures mode.CLOSED? && consecutiveFailures == 0 && openedAt.None? && !probeInFlight
    {
      mode, consecutiveFailures, openedAt, probeInFlight := CLOSED, 0, None, false;
      Log(Success(now));
    }

    /**
     `record_failure`: afterwards the breaker is closed only if the trace since the last success has
     no hard failure and is short of the threshold.
     */
    method RecordFailure(hard: bool, now: real)
      requires Valid()
      modifies this
      ensures Valid() && trace == old(trace) + [Failure(hard, now)]
      ensures View() == Step(old(View()), Failure(hard, now))
      ensures mode.CLOSED? <==> !HardSinceSuccess(trace) && FailuresSinceSuccess(trace) < failureThreshold
    {
      var wasHalfOpen := mode.HALF_OPEN?;
      probeInFlight := false;
      consecutiveFailures := consecutiveFailures + 1;
      if hard || wasHalfOpen || consecutiveFailures >= failureThreshold {
        mode := OPEN;
        openedAt := Some(now);
      }
      Log(Failure(hard, now));
      BreakerTracksHistory(failureThreshold, cooldown, trace);
    }
  }
}
