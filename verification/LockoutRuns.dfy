/** Requests served concurrently (internal/dashboard/auth.go): the lock check, the record of a failure and the
    clearing after a success are separate critical sections, so requests that passed the check together can all
    fail after the address is locked. */
module LockoutRuns {
  import opened FleetTypes
  import opened AuthLockout

  /** A request that passed the lock check. */
  datatype Flight = Flight(ip: string, lockAt: Time)

  datatype State = State(clock: Time, log: Log, flights: map<nat, Flight>)

  /** A failure measures the gap to the last one, and takes some time until it is recorded. */
  datatype Step =
    | Tick(elapsed: nat)
    | Check(flight: nat, ip: string)
    | Reject(flight: nat, took: nat)
    | Succeed(flight: nat)
    | Leave(flight: nat)

  const START := State(0, map[], map[])

  function Apply(rules: Rules, s: State, step: Step): State {
    match step
    case Tick(elapsed) => s.(clock := s.clock + elapsed)
    case Check(f, ip) =>
      if f in s.flights || Locked(rules, Of(s.log, ip), s.clock) then s
      else s.(flights := s.flights[f := Flight(ip, s.clock)])
    case Reject(f, took) =>
      if f !in s.flights then s
      else s.(log := Extend(s.log, s.flights[f].ip, Failure(s.flights[f].lockAt, s.clock, s.clock + took)),
              clock := s.clock + took, flights := s.flights - {f})
    case Succeed(f) =>
      if f !in s.flights then s
      else s.(log := Extend(s.log, s.flights[f].ip, Success), flights := s.flights - {f})
    case Leave(f) => s.(flights := s.flights - {f})
  }

  function After(rules: Rules, steps: seq<Step>): State {
    if steps == [] then START else Apply(rules, After(rules, steps[..|steps| - 1]), steps[|steps| - 1])
  }

  lemma AfterMore(rules: Rules, steps: seq<Step>, step: Step)
    ensures After(rules, steps + [step]) == Apply(rules, After(rules, steps), step)
  {
    assert (steps + [step])[..|steps + [step]| - 1] == steps;
  }

  // ---- requests in flight ----

  function Those(flights: map<nat, Flight>, ip: string): set<nat> {
    set f | f in flights && flights[f].ip == ip
  }

  function Count(flights: map<nat, Flight>, ip: string): nat {
    |Those(flights, ip)|
  }

  lemma CountPut(flights: map<nat, Flight>, f: nat, flight: Flight, ip: string)
    requires f !in flights
    ensures Count(flights[f := flight], ip) == Count(flights, ip) + if flight.ip == ip then 1 else 0
  {
    assert Those(flights[f := flight], ip) == if flight.ip == ip then Those(flights, ip) + {f} else Those(flights, ip);
  }

  lemma CountDrop(flights: map<nat, Flight>, f: nat, ip: string)
    requires f in flights
    ensures Count(flights, ip) == Count(flights - {f}, ip) + if flights[f].ip == ip then 1 else 0
  {
    CountPut(flights - {f}, f, flights[f], ip);
    assert (flights - {f})[f := flights[f]] == flights;
  }

  /** At no moment of the run are more than `k` requests of the address in flight. */
  ghost predicate AtMostInFlight(rules: Rules, steps: seq<Step>, ip: string, k: nat) {
    && Count(After(rules, steps).flights, ip) <= k
    && (steps != [] ==> AtMostInFlight(rules, steps[..|steps| - 1], ip, k))
  }

  // ---- the bound ----

  /** Failures are recorded in order, none later than now. */
  ghost predicate InTime(h: Attempts, clock: Time) {
    && (forall k :: 0 <= k < |h| && h[k].Failure? ==> h[k].gapAt <= h[k].at <= clock)
    && (forall k :: 0 < k < |h| && h[k].Failure? && h[k - 1].Failure? ==> h[k - 1].at <= h[k].at)
  }

  /** From failure `i` on nothing but failures, all within one window length of now. */
  ghost predicate Window(rules: Rules, h: Attempts, i: nat, clock: Time) {
    && i < |h| && (forall k :: i <= k < |h| ==> h[k].Failure?)
    && clock - h[i].at <= rules.failWindow
  }

  /** A full window means a lock. */
  lemma WindowLocks(rules: Rules, h: Attempts, i: nat, clock: Time)
    requires InTime(h, clock) && Window(rules, h, i, clock) && |h| - i >= rules.maxFails
    ensures Locked(rules, h, clock)
  {
    assert Orderly(h, i, |h|);
    InOrder(h, i, |h|);
    RunGrows(rules, h, i, |h|);
    assert h[..|h|] == h;
  }

  /** Every window that is full, together with the requests in flight, stays within the bound. */
  ghost predicate Bounded(rules: Rules, s: State, ip: string, k: nat) {
    var h := Of(s.log, ip);
    && InTime(h, s.clock)
    && forall i :: Window(rules, h, i, s.clock) && |h| - i >= rules.maxFails ==>
         |h| - i + Count(s.flights, ip) <= rules.maxFails + k - 1
  }

  /** A failure of this address. */
  lemma FailBounded(rules: Rules, s: State, f: nat, took: nat, ip: string, k: nat)
    requires rules.maxFails >= 1 && Bounded(rules, s, ip, k) && Count(s.flights, ip) <= k
    requires f in s.flights && s.flights[f].ip == ip
    ensures Bounded(rules, Apply(rules, s, Reject(f, took)), ip, k)
  {
    var after := Apply(rules, s, Reject(f, took));
    var h, longer := Of(s.log, ip), Of(after.log, ip);
    assert longer == h + [Failure(s.flights[f].lockAt, s.clock, s.clock + took)];
    CountDrop(s.flights, f, ip);
    forall i: nat | Window(rules, longer, i, after.clock) && |longer| - i >= rules.maxFails
      ensures |longer| - i + Count(after.flights, ip) <= rules.maxFails + k - 1
    {
      if |h| - i >= rules.maxFails {
        assert forall j :: i <= j < |h| ==> h[j] == longer[j];
        assert Window(rules, h, i, s.clock);
      }
    }
  }

  lemma OtherLog(rules: Rules, s: State, step: Step, ip: string)
    requires (step.Reject? || step.Succeed?) && step.flight in s.flights && s.flights[step.flight].ip != ip
    ensures Of(Apply(rules, s, step).log, ip) == Of(s.log, ip)
    ensures Count(Apply(rules, s, step).flights, ip) == Count(s.flights, ip)
  {
    CountDrop(s.flights, step.flight, ip);
  }

  /** With the history of the address unchanged, later and with no more requests in flight. */
  lemma BoundedLater(rules: Rules, s: State, t: State, ip: string, k: nat)
    requires Bounded(rules, s, ip, k) && Of(t.log, ip) == Of(s.log, ip) && s.clock <= t.clock
    requires Count(t.flights, ip) <= Count(s.flights, ip)
    ensures Bounded(rules, t, ip, k)
  {
    var h := Of(s.log, ip);
    forall i | Window(rules, h, i, t.clock) && |h| - i >= rules.maxFails
      ensures |h| - i + Count(t.flights, ip) <= rules.maxFails + k - 1
    {
      assert Window(rules, h, i, s.clock);
    }
  }

  /** A request that passes the lock check finds no full window. */
  lemma CheckBounded(rules: Rules, s: State, f: nat, ip: string, k: nat)
    requires Bounded(rules, s, ip, k) && f !in s.flights && !Locked(rules, Of(s.log, ip), s.clock)
    ensures Bounded(rules, Apply(rules, s, Check(f, ip)), ip, k)
  {
    var h := Of(s.log, ip);
    forall i
      ensures !(Window(rules, h, i, s.clock) && |h| - i >= rules.maxFails)
    {
      FullWindowLocks(rules, h, i, s.clock);
    }
  }

  lemma FullWindowLocks(rules: Rules, h: Attempts, i: nat, clock: Time)
    requires InTime(h, clock)
    ensures Window(rules, h, i, clock) && |h| - i >= rules.maxFails ==> Locked(rules, h, clock)
  {
    if Window(rules, h, i, clock) && |h| - i >= rules.maxFails {
      WindowLocks(rules, h, i, clock);
    }
  }

  lemma SucceedBounded(rules: Rules, s: State, f: nat, ip: string, k: nat)
    requires Bounded(rules, s, ip, k) && f in s.flights && s.flights[f].ip == ip
    ensures Bounded(rules, Apply(rules, s, Succeed(f)), ip, k)
  {
    var longer := Of(Apply(rules, s, Succeed(f)).log, ip);
    assert longer == Of(s.log, ip) + [Success];
    assert longer[|longer| - 1].Success?;
  }

  lemma BoundedStep(rules: Rules, s: State, step: Step, ip: string, k: nat)
    requires rules.maxFails >= 1 && Bounded(rules, s, ip, k) && Count(s.flights, ip) <= k
    ensures Bounded(rules, Apply(rules, s, step), ip, k)
  {
    var after := Apply(rules, s, step);
    match step
    case Tick(_) => BoundedLater(rules, s, after, ip, k);
    case Check(f, other) =>
      if f !in s.flights && !Locked(rules, Of(s.log, other), s.clock) {
        CountPut(s.flights, f, Flight(other, s.clock), ip);
        if other == ip { CheckBounded(rules, s, f, ip, k); } else { BoundedLater(rules, s, after, ip, k); }
      }
    case Reject(f, took) =>
      if f in s.flights {
        if s.flights[f].ip == ip { FailBounded(rules, s, f, took, ip, k); }
        else { OtherLog(rules, s, step, ip); BoundedLater(rules, s, after, ip, k); }
      }
    case Succeed(f) =>
      if f in s.flights {
        if s.flights[f].ip == ip { SucceedBounded(rules, s, f, ip, k); }
        else { OtherLog(rules, s, step, ip); BoundedLater(rules, s, after, ip, k); }
      }
    case Leave(f) =>
      if f in s.flights { CountDrop(s.flights, f, ip); BoundedLater(rules, s, after, ip, k); }
      else { assert s.flights - {f} == s.flights; }
  }

  lemma {:induction false} BoundedAlways(rules: Rules, steps: seq<Step>, ip: string, k: nat)
    requires rules.maxFails >= 1 && AtMostInFlight(rules, steps, ip, k)
    ensures Bounded(rules, After(rules, steps), ip, k)
  {
    if steps == [] {
    } else {
      var init := steps[..|steps| - 1];
      BoundedAlways(rules, init, ip, k);
      BoundedStep(rules, After(rules, init), steps[|steps| - 1], ip, k);
    }
  }

  /** What a step adds to the history of an address. */
  lemma LogGrows(rules: Rules, s: State, step: Step, ip: string)
    ensures var h, longer := Of(s.log, ip), Of(Apply(rules, s, step).log, ip);
      || longer == h
      || longer == h + [Success]
      || exists lockAt, gapAt :: longer == h + [Failure(lockAt, gapAt, Apply(rules, s, step).clock)]
  {
    if step.Reject? && step.flight in s.flights && s.flights[step.flight].ip == ip {
      assert Of(Apply(rules, s, step).log, ip)
          == Of(s.log, ip) + [Failure(s.flights[step.flight].lockAt, s.clock, Apply(rules, s, step).clock)];
    }
  }

  /** AC-7 under concurrency: with at most `k` requests of the address in flight at any time, the failures i..j
      of one closed interval of window length, with no success in between, are at most maxFails + k - 1. */
  lemma {:induction false} ConcurrentWindowBound(rules: Rules, steps: seq<Step>, ip: string, k: nat, i: nat, j: nat)
    requires rules.maxFails >= 1 && k >= 1 && AtMostInFlight(rules, steps, ip, k)
    requires var h := Of(After(rules, steps).log, ip);
      && i <= j <= |h| && (forall n :: i <= n < j ==> h[n].Failure?)
      && (i < j ==> h[j - 1].at - h[i].at <= rules.failWindow)
    ensures j - i <= rules.maxFails + k - 1
  {
    if steps == [] {
    } else {
      var init := steps[..|steps| - 1];
      var before, after := After(rules, init), After(rules, steps);
      var h, longer := Of(before.log, ip), Of(after.log, ip);
      LogGrows(rules, before, steps[|steps| - 1], ip);
      if j <= |h| {
        assert forall n :: 0 <= n < |h| ==> h[n] == longer[n];
        ConcurrentWindowBound(rules, init, ip, k, i, j);
      } else if i < j {
        assert longer[j - 1].Failure? && longer[j - 1].at == after.clock;
        BoundedAlways(rules, steps, ip, k);
        assert Window(rules, longer, i, after.clock);
      }
    }
  }

  // ---- the bound is reached ----

  function Fails(n: nat): Attempts {
    if n == 0 then [] else Fails(n - 1) + [Failure(0, 0, 0)]
  }

  function FailLog(ip: string, n: nat): Log {
    if n == 0 then map[] else map[ip := Fails(n)]
  }

  /** Requests lo..hi are in flight, those before have failed, all in the first instant. */
  ghost predicate Stage(s: State, ip: string, lo: nat, hi: nat) {
    && s.clock == 0 && s.log == FailLog(ip, lo)
    && (forall f :: f in s.flights <==> lo <= f < hi)
    && (forall f <- s.flights :: s.flights[f] == Flight(ip, 0))
  }

  lemma {:induction false} FailsLength(rules: Rules, n: nat)
    ensures |Fails(n)| == n && RunLength(rules, Fails(n)) == n
    ensures n > 0 ==> Fails(n)[n - 1] == Failure(0, 0, 0)
  {
    if n > 0 {
      FailsLength(rules, n - 1);
      RunSnoc(rules, Fails(n - 1), Failure(0, 0, 0));
    }
  }

  lemma StageLog(ip: string, n: nat)
    ensures Of(FailLog(ip, n), ip) == Fails(n)
    ensures Extend(FailLog(ip, n), ip, Failure(0, 0, 0)) == FailLog(ip, n + 1)
  {
  }

  lemma {:induction false} Interval(fs: set<nat>, lo: nat, hi: nat)
    requires lo <= hi && forall f <- fs :: lo <= f < hi
    ensures |fs| <= hi - lo
    decreases hi - lo
  {
    if lo == hi {
      assert fs == {};
    } else {
      Interval(fs - {lo}, lo + 1, hi);
      assert fs <= (fs - {lo}) + {lo};
    }
  }

  lemma StageCount(s: State, ip: string, lo: nat, hi: nat)
    requires Stage(s, ip, lo, hi) && lo <= hi
    ensures Count(s.flights, ip) <= hi - lo
  {
    Interval(Those(s.flights, ip), lo, hi);
  }

  /** The run has reached the stage, with at most `k` requests in flight on the way. */
  ghost predicate Reaches(rules: Rules, steps: seq<Step>, ip: string, k: nat, lo: nat, hi: nat) {
    Stage(After(rules, steps), ip, lo, hi) && AtMostInFlight(rules, steps, ip, k)
  }

  lemma InFlightMore(rules: Rules, steps: seq<Step>, step: Step, ip: string, k: nat)
    requires AtMostInFlight(rules, steps, ip, k) && Count(Apply(rules, After(rules, steps), step).flights, ip) <= k
    ensures AtMostInFlight(rules, steps + [step], ip, k)
  {
    AfterMore(rules, steps, step);
    assert (steps + [step])[..|steps + [step]| - 1] == steps;
  }

  lemma StageCheck(rules: Rules, s: State, ip: string, lo: nat, hi: nat)
    requires Stage(s, ip, lo, hi) && lo <= hi && lo < rules.maxFails
    ensures Stage(Apply(rules, s, Check(hi, ip)), ip, lo, hi + 1)
  {
    StageLog(ip, lo);
    FailsLength(rules, lo);
  }

  lemma StageReject(rules: Rules, s: State, ip: string, lo: nat, hi: nat)
    requires Stage(s, ip, lo, hi) && lo < hi
    ensures Stage(Apply(rules, s, Reject(lo, 0)), ip, lo + 1, hi)
  {
    StageLog(ip, lo);
  }

  lemma CheckOne(rules: Rules, steps: seq<Step>, ip: string, k: nat, lo: nat, hi: nat)
    requires Reaches(rules, steps, ip, k, lo, hi) && lo <= hi < lo + k && lo < rules.maxFails
    ensures Reaches(rules, steps + [Check(hi, ip)], ip, k, lo, hi + 1)
  {
    AfterMore(rules, steps, Check(hi, ip));
    StageCheck(rules, After(rules, steps), ip, lo, hi);
    StageCount(Apply(rules, After(rules, steps), Check(hi, ip)), ip, lo, hi + 1);
    InFlightMore(rules, steps, Check(hi, ip), ip, k);
  }

  lemma FailOne(rules: Rules, steps: seq<Step>, ip: string, k: nat, lo: nat, hi: nat)
    requires Reaches(rules, steps, ip, k, lo, hi) && lo < hi <= lo + k
    ensures Reaches(rules, steps + [Reject(lo, 0)], ip, k, lo + 1, hi)
  {
    AfterMore(rules, steps, Reject(lo, 0));
    StageReject(rules, After(rules, steps), ip, lo, hi);
    StageCount(Apply(rules, After(rules, steps), Reject(lo, 0)), ip, lo + 1, hi);
    InFlightMore(rules, steps, Reject(lo, 0), ip, k);
  }

  /** `n` requests fail one after the other. */
  lemma {:induction false} FailSerially(rules: Rules, ip: string, k: nat, n: nat) returns (steps: seq<Step>)
    requires k >= 1 && n <= rules.maxFails
    ensures Reaches(rules, steps, ip, k, n, n)
  {
    if n == 0 {
      steps := [];
      StageCount(START, ip, 0, 0);
    } else {
      var init := FailSerially(rules, ip, k, n - 1);
      CheckOne(rules, init, ip, k, n - 1, n - 1);
      FailOne(rules, init + [Check(n - 1, ip)], ip, k, n - 1, n);
      steps := init + [Check(n - 1, ip)] + [Reject(n - 1, 0)];
    }
  }

  /** Requests n..hi pass the lock check before any of them fails. */
  lemma {:induction false} CheckTogether(rules: Rules, first: seq<Step>, ip: string, k: nat, n: nat, hi: nat)
    returns (steps: seq<Step>)
    requires Reaches(rules, first, ip, k, n, n) && n <= hi <= n + k && n < rules.maxFails
    ensures Reaches(rules, steps, ip, k, n, hi)
    decreases hi
  {
    if hi == n {
      steps := first;
    } else {
      var init := CheckTogether(rules, first, ip, k, n, hi - 1);
      CheckOne(rules, init, ip, k, n, hi - 1);
      steps := init + [Check(hi - 1, ip)];
    }
  }

  lemma {:induction false} FailTogether(rules: Rules, first: seq<Step>, ip: string, k: nat, n: nat, lo: nat, hi: nat)
    returns (steps: seq<Step>)
    requires Reaches(rules, first, ip, k, n, hi) && n <= lo <= hi <= n + k
    ensures Reaches(rules, steps, ip, k, lo, hi)
    decreases lo
  {
    if lo == n {
      steps := first;
    } else {
      var init := FailTogether(rules, first, ip, k, n, lo - 1, hi);
      FailOne(rules, init, ip, k, lo - 1, hi);
      steps := init + [Reject(lo - 1, 0)];
    }
  }

  /** For every limit and every degree of concurrency some run reaches the bound exactly, in one instant. */
  lemma {:induction false} ConcurrentBoundIsTight(rules: Rules, ip: string, k: nat) returns (steps: seq<Step>)
    requires rules.maxFails >= 1 && k >= 1
    ensures AtMostInFlight(rules, steps, ip, k)
    ensures var h := Of(After(rules, steps).log, ip);
      |h| == rules.maxFails + k - 1 && forall i :: 0 <= i < |h| ==> h[i] == Failure(0, 0, 0)
  {
    var n: nat := rules.maxFails - 1;
    var first := FailSerially(rules, ip, k, n);
    var second := CheckTogether(rules, first, ip, k, n, n + k);
    steps := FailTogether(rules, second, ip, k, n, n + k, n + k);
    StageLog(ip, n + k);
    FailsLength(rules, n + k);
    AllFail(n + k);
  }

  lemma {:induction false} AllFail(n: nat)
    ensures forall i :: 0 <= i < |Fails(n)| ==> Fails(n)[i] == Failure(0, 0, 0)
  {
    if n > 0 {
      AllFail(n - 1);
    }
  }
}
