/** Bearer-token authentication with a failure lockout per address (internal/dashboard/auth.go). */
module AuthLockout {
  import opened FleetTypes

  /** One evaluated token: when the lock was checked, when the gap was measured, when it was recorded. */
  datatype Attempt = Failure(lockAt: Time, gapAt: Time, at: Time) | Success

  type Attempts = seq<Attempt>

  datatype Rules = Rules(maxFails: nat, failWindow: nat)

  /** Length of the current run: failures since the last success with no gap above the window. */
  function RunLength(rules: Rules, h: Attempts): nat {
    if h == [] then 0 else
      var init, last := h[..|h| - 1], h[|h| - 1];
      if last.Success? then 0
      else if RunLength(rules, init) > 0 && last.gapAt - init[|init| - 1].at <= rules.failWindow then RunLength(rules, init) + 1
      else 1
  }

  /** The last `n` attempts are failures, each within the window of the one before. */
  ghost predicate IsRun(rules: Rules, h: Attempts, n: nat) {
    && n <= |h|
    && (forall k :: |h| - n <= k < |h| ==> h[k].Failure?)
    && (forall k :: |h| - n < k < |h| ==> h[k].gapAt - h[k - 1].at <= rules.failWindow)
  }

  lemma RunPositive(rules: Rules, h: Attempts)
    ensures RunLength(rules, h) > 0 <==> h != [] && h[|h| - 1].Failure?
  {
  }

  /** The recursion finds the longest run. */
  lemma {:induction false} RunIsLongest(rules: Rules, h: Attempts, n: nat)
    ensures IsRun(rules, h, n) <==> n <= RunLength(rules, h)
  {
    RunPositive(rules, h);
    if h == [] {
    } else {
      var init := h[..|h| - 1];
      RunIsLongest(rules, init, if n == 0 then 0 else n - 1);
      if n > 0 && IsRun(rules, h, n) {
        assert forall k :: 0 <= k < |init| ==> init[k] == h[k];
        assert IsRun(rules, init, n - 1);
      }
      if 0 < n <= RunLength(rules, h) {
        assert IsRun(rules, init, n - 1);
        assert forall k :: 0 <= k < |init| ==> init[k] == h[k];
      }
    }
  }

  /** Locked at `now`: the current run is long enough and its last failure is at most a window old. */
  predicate Locked(rules: Rules, h: Attempts, now: Time) {
    h != [] && h[|h| - 1].Failure? && RunLength(rules, h) >= rules.maxFails && now - h[|h| - 1].at <= rules.failWindow
  }

  /** Clock readings only grow, and no token was evaluated while the address was locked. */
  ghost predicate Guarded(rules: Rules, h: Attempts) {
    forall k :: 0 <= k < |h| && h[k].Failure? ==>
      && h[k].lockAt <= h[k].gapAt <= h[k].at
      && (k > 0 && h[k - 1].Failure? ==> h[k - 1].at <= h[k].lockAt)
      && !Locked(rules, h[..k], h[k].lockAt)
  }

  lemma RunSnoc(rules: Rules, h: Attempts, e: Attempt)
    ensures RunLength(rules, h + [e]) ==
      if e.Success? then 0
      else if RunLength(rules, h) > 0 && e.gapAt - h[|h| - 1].at <= rules.failWindow then RunLength(rules, h) + 1
      else 1
  {
    assert (h + [e])[..|h + [e]| - 1] == h;
  }

  lemma GuardedSnoc(rules: Rules, h: Attempts, e: Attempt)
    requires Guarded(rules, h)
    requires e.Failure? ==>
      && e.lockAt <= e.gapAt <= e.at
      && (h != [] && h[|h| - 1].Failure? ==> h[|h| - 1].at <= e.lockAt)
      && !Locked(rules, h, e.lockAt)
    ensures Guarded(rules, h + [e])
  {
    var longer := h + [e];
    assert forall k :: 0 <= k <= |h| ==> longer[..k] == h[..k];
    assert h[..|h|] == h;
  }

  /** Failures i..j, recorded in order and each after its gap was measured. */
  ghost predicate Orderly(h: Attempts, i: nat, j: nat) {
    && i < j <= |h|
    && (forall k :: i <= k < j ==> h[k].Failure? && h[k].gapAt <= h[k].at)
    && (forall k :: i < k < j ==> h[k - 1].at <= h[k].at)
  }

  lemma {:induction false} InOrder(h: Attempts, i: nat, j: nat)
    requires Orderly(h, i, j)
    ensures h[i].at <= h[j - 1].at
    decreases j
  {
    if j > i + 1 {
      InOrder(h, i, j - 1);
    }
  }

  lemma LastBefore(h: Attempts, j: nat)
    requires 1 < j <= |h|
    ensures h[..j - 1][|h[..j - 1]| - 1] == h[j - 2] && h[..j] == h[..j - 1] + [h[j - 1]]
  {
  }

  /** From the first failure of a window on, the run grows by one with each failure. */
  lemma {:induction false} RunGrows(rules: Rules, h: Attempts, i: nat, j: nat)
    requires Orderly(h, i, j) && h[j - 1].at - h[i].at <= rules.failWindow
    ensures RunLength(rules, h[..j]) >= j - i
    decreases j
  {
    if j == i + 1 {
      assert h[..j] == h[..j - 1] + [h[j - 1]];
      RunSnoc(rules, h[..j - 1], h[j - 1]);
    } else {
      LastBefore(h, j);
      RunSnoc(rules, h[..j - 1], h[j - 1]);
      InOrder(h, i, j - 1);
      assert h[j - 2].at <= h[j - 1].at;
      RunGrows(rules, h, i, j - 1);
    }
  }

  /** A failure after a full run inside the window meets a lock. */
  lemma OverrunIsLocked(rules: Rules, h: Attempts, i: nat, k: nat, j: nat)
    requires rules.maxFails >= 1 && k == i + rules.maxFails < j
    requires Orderly(h, i, j) && h[k].lockAt <= h[k].at && h[j - 1].at - h[i].at <= rules.failWindow
    requires h[k - 1].at <= h[k].lockAt
    ensures Locked(rules, h[..k], h[k].lockAt)
  {
    InOrder(h, k, j);
    InOrder(h, i, k);
    RunGrows(rules, h, i, k);
    assert h[..k][|h[..k]| - 1] == h[k - 1];
  }

  /** AC-7: failures i..j of one address without a success in between that fall into one closed interval of
      window length are at most `maxFails`. */
  lemma WindowBound(rules: Rules, h: Attempts, i: nat, j: nat)
    requires rules.maxFails >= 1 && Guarded(rules, h) && i <= j <= |h|
    requires forall k :: i <= k < j ==> h[k].Failure?
    requires i < j ==> h[j - 1].at - h[i].at <= rules.failWindow
    ensures j - i <= rules.maxFails
  {
    if j - i > rules.maxFails {
      var k := i + rules.maxFails;
      OverrunIsLocked(rules, h, i, k, j);
    }
  }

  /** The attempts of every address, each in order. */
  type Log = map<string, Attempts>

  function Of(log: Log, ip: string): Attempts {
    if ip in log then log[ip] else []
  }

  function Extend(log: Log, ip: string, e: Attempt): Log {
    log[ip := Of(log, ip) + [e]]
  }

  /** strings.TrimPrefix: takes a leading prefix off, once, and leaves any other text alone. */
  function TrimPrefix(s: string, prefix: string): (r: string)
    ensures prefix <= s ==> s == prefix + r
    ensures !(prefix <= s) ==> r == s
  {
    if prefix <= s then s[|prefix|..] else s
  }

  lemma TrimmedPrefix(prefix: string, s: string)
    ensures TrimPrefix(prefix + s, prefix) == s
  {
    assert prefix <= prefix + s;
    assert (prefix + s)[|prefix|..] == s;
  }

  /** The two headers that carry a token: with the scheme, or bare if that does not look like one with the scheme. */
  lemma HeadersThatCarry(header: string, token: string)
    ensures TrimPrefix(header, "Bearer ") == token
            <==> header == "Bearer " + token || (header == token && !("Bearer " <= header))
  {
    TrimmedPrefix("Bearer ", token);
    if "Bearer " <= header {
      assert header == "Bearer " + TrimPrefix(header, "Bearer ");
    }
  }

  const BEARER := "Bearer "
  const API := "/api/v1/"
  const HEALTH := "/api/v1/health"

  datatype Response = Served | TooManyRequests | Unauthorized | Forbidden

  datatype FailedAuth = FailedAuth(count: nat, lastFail: Time)

  /** An entry is the current run of its address; without one the address has no run, or an expired one. */
  ghost predicate Tracked(rules: Rules, tracker: map<string, FailedAuth>, ip: string, h: Attempts, clock: Time) {
    && (h != [] && h[|h| - 1].Failure? ==> h[|h| - 1].at <= clock)
    && if ip in tracker
       then h != [] && h[|h| - 1].Failure? && tracker[ip] == FailedAuth(RunLength(rules, h), h[|h| - 1].at)
       else h == [] || h[|h| - 1].Success? || clock - h[|h| - 1].at > rules.failWindow
  }

  /** The entry after a failure, as recordFailure computes it. */
  function Bumped(rules: Rules, tracker: map<string, FailedAuth>, ip: string, gapAt: Time, now: Time): FailedAuth {
    if ip !in tracker || gapAt - tracker[ip].lastFail > rules.failWindow then FailedAuth(1, now)
    else FailedAuth(tracker[ip].count + 1, now)
  }

  lemma BumpedTracks(rules: Rules, tracker: map<string, FailedAuth>, ip: string, h: Attempts, clock: Time,
                     lockAt: Time, gapAt: Time, now: Time)
    requires Tracked(rules, tracker, ip, h, clock) && clock <= gapAt <= now
    ensures Tracked(rules, tracker[ip := Bumped(rules, tracker, ip, gapAt, now)], ip, h + [Failure(lockAt, gapAt, now)], now)
  {
    RunPositive(rules, h);
    RunSnoc(rules, h, Failure(lockAt, gapAt, now));
  }

  ghost predicate Consistent(rules: Rules, tracker: map<string, FailedAuth>, log: Log, clock: Time) {
    forall ip :: Tracked(rules, tracker, ip, Of(log, ip), clock)
  }

  lemma FailureKeepsConsistent(rules: Rules, tracker: map<string, FailedAuth>, log: Log, clock: Time,
                               ip: string, lockAt: Time, gapAt: Time, now: Time)
    requires Consistent(rules, tracker, log, clock) && clock <= gapAt <= now
    ensures Consistent(rules, tracker[ip := Bumped(rules, tracker, ip, gapAt, now)],
                       Extend(log, ip, Failure(lockAt, gapAt, now)), now)
  {
    var e := Failure(lockAt, gapAt, now);
    BumpedTracks(rules, tracker, ip, Of(log, ip), clock, lockAt, gapAt, now);
    forall other
      ensures Tracked(rules, tracker[ip := Bumped(rules, tracker, ip, gapAt, now)], other, Of(Extend(log, ip, e), other), now)
    {
      assert Tracked(rules, tracker, other, Of(log, other), clock);
    }
  }

  /** Every address was only ever served while it was not locked. */
  ghost predicate AllGuarded(rules: Rules, log: Log) {
    forall ip :: Guarded(rules, Of(log, ip))
  }

  lemma ExtendGuarded(rules: Rules, log: Log, ip: string, e: Attempt)
    requires AllGuarded(rules, log) && Guarded(rules, Of(log, ip) + [e])
    ensures AllGuarded(rules, Extend(log, ip, e))
  {
    forall other
      ensures Guarded(rules, Of(Extend(log, ip, e), other))
    {
      assert Guarded(rules, Of(log, other));
    }
  }

  /** An attempt let through while the address was not locked keeps its history guarded. */
  lemma ServedGuarded(rules: Rules, log: Log, ip: string, e: Attempt)
    requires var h := Of(log, ip);
      e.Failure? ==>
        && e.lockAt <= e.gapAt <= e.at
        && (h != [] && h[|h| - 1].Failure? ==> h[|h| - 1].at <= e.lockAt)
        && !Locked(rules, h, e.lockAt)
    ensures AllGuarded(rules, log) ==> AllGuarded(rules, Extend(log, ip, e))
  {
    if AllGuarded(rules, log) {
      GuardedSnoc(rules, Of(log, ip), e);
      ExtendGuarded(rules, log, ip, e);
    }
  }

  class AuthMiddleware {
    const token: string
    const rules: Rules
    var failTracker: map<string, FailedAuth>
    ghost var log: Log
    ghost var clock: Time

    /** Five failures within five minutes. The configured lockout duration is never consulted. */
    constructor (token: string)
      ensures this.token == token && rules == Rules(5, 300 * SECOND) && log == map[] && clock == 0 && Valid()
      ensures AllGuarded(rules, log)
    {
      this.token := token;
      rules := Rules(5, 300 * SECOND);
      failTracker := map[];
      log := map[];
      clock := 0;
    }

    ghost predicate Valid()
      reads this
    {
      Consistent(rules, failTracker, log, clock)
    }

    /** Expired entries are deleted on the way; that never changes who is locked. */
    method IsLockedOut(ip: string, now: Time) returns (locked: bool)
      requires Valid() && clock <= now
      modifies this
      ensures Valid() && log == old(log) && clock == now
      ensures locked <==> Locked(rules, Of(log, ip), now)
    {
      clock := now;
      ghost var h := Of(log, ip);
      RunPositive(rules, h);
      if ip !in failTracker {
        return false;
      }
      if now - failTracker[ip].lastFail > rules.failWindow {
        failTracker := failTracker - {ip};
        return false;
      }
      locked := failTracker[ip].count >= rules.maxFails;
    }

    /** `lockAt` is when the request passed the lock check, which other requests may have followed. */
    method RecordFailure(ip: string, ghost lockAt: Time, gapAt: Time, now: Time)
      requires Valid() && clock <= gapAt <= now
      modifies this
      ensures Valid() && log == Extend(old(log), ip, Failure(lockAt, gapAt, now)) && clock == now
    {
      FailureKeepsConsistent(rules, failTracker, log, clock, ip, lockAt, gapAt, now);
      if ip !in failTracker || gapAt - failTracker[ip].lastFail > rules.failWindow {
        failTracker := failTracker[ip := FailedAuth(1, now)];
      } else {
        failTracker := failTracker[ip := FailedAuth(failTracker[ip].count + 1, now)];
      }
      log := Extend(log, ip, Failure(lockAt, gapAt, now));
      clock := now;
    }

    method ClearFailures(ip: string)
      requires Valid()
      modifies this
      ensures Valid() && log == Extend(old(log), ip, Success) && clock == old(clock)
    {
      failTracker := failTracker - {ip};
      log := Extend(log, ip, Success);
      forall other
        ensures Tracked(rules, failTracker, other, Of(log, other), clock)
      {
        assert Tracked(rules, old(failTracker), other, Of(old(log), other), clock);
      }
    }

    /** One request that nothing interrupts; the clock is read for the lock check, for the gap and for the
        record. `audited` is the action of the audit event, None when nothing is logged. */
    method ServeHTTP(path: string, ip: string, header: string, lockAt: Time, gapAt: Time, at: Time)
      returns (r: Response, audited: Option<string>)
      requires Valid() && clock <= lockAt <= gapAt <= at
      modifies this
      ensures Valid() && clock <= at
      ensures var open := token == "" || !(API <= path) || path == HEALTH;
        var locked := Locked(rules, Of(old(log), ip), lockAt);
        && r == (if open then Served else if locked then TooManyRequests else if header == "" then Unauthorized
                 else if TrimPrefix(header, BEARER) != token then Forbidden else Served)
        && log == (if open || locked || header == "" then old(log)
                   else Extend(old(log), ip, if r == Forbidden then Failure(lockAt, gapAt, at) else Success))
        && audited == (if open || r == Unauthorized then None
                       else Some(if locked then "lockout" else if r == Forbidden then "login_failed" else "login_success"))
      ensures token != "" && "/api/v1/" <= path && path != "/api/v1/health" && header != "" && r != TooManyRequests ==>
        (r == Served <==> header == "Bearer " + token || (header == token && !("Bearer " <= header)))
      ensures !("/api/v1/" <= path) || path == "/api/v1/health" ==> r == Served && log == old(log)
      ensures r == TooManyRequests ==> Locked(rules, Of(old(log), ip), lockAt)
      ensures AllGuarded(rules, old(log)) ==> AllGuarded(rules, log)
    {
      HeadersThatCarry(header, token);
      audited := None;
      if token == "" {
        return Served, audited;
      }
      if !(API <= path) {
        return Served, audited;
      }
      if path == HEALTH {
        return Served, audited;
      }
      ghost var h := Of(log, ip);
      assert Tracked(rules, failTracker, ip, h, clock);
      var locked := IsLockedOut(ip, lockAt);
      if locked {
        return TooManyRequests, Some("lockout");
      }
      if header == "" {
        return Unauthorized, audited;
      }
      if TrimPrefix(header, BEARER) != token {
        ServedGuarded(rules, log, ip, Failure(lockAt, gapAt, at));
        RecordFailure(ip, lockAt, gapAt, at);
        return Forbidden, Some("login_failed");
      }
      ServedGuarded(rules, log, ip, Success);
      ClearFailures(ip);
      r, audited := Served, Some("login_success");
    }

    /** Compares strictly where IsLockedOut does not: an address whose last failure is exactly one window old
        is locked but does not show here. */
    method HasLockouts(now: Time) returns (r: bool)
      requires Valid() && clock <= now
      ensures r <==> exists ip :: Locked(rules, Of(log, ip), now) && now - Last(Of(log, ip)) < rules.failWindow
      ensures r ==> exists ip :: Locked(rules, Of(log, ip), now)
      ensures !r ==> forall ip :: Locked(rules, Of(log, ip), now) ==> now - Last(Of(log, ip)) == rules.failWindow
    {
      var todo := failTracker.Keys;
      while todo != {}
        invariant todo <= failTracker.Keys
        invariant forall ip <- failTracker.Keys - todo ::
            !(failTracker[ip].count >= rules.maxFails && now - failTracker[ip].lastFail < rules.failWindow)
        decreases |todo|
      {
        var ip :| ip in todo;
        todo := todo - {ip};
        if failTracker[ip].count >= rules.maxFails && now - failTracker[ip].lastFail < rules.failWindow {
          assert Tracked(rules, failTracker, ip, Of(log, ip), clock);
          assert Locked(rules, Of(log, ip), now) && now - Last(Of(log, ip)) < rules.failWindow;
          return true;
        }
      }
      forall ip | Locked(rules, Of(log, ip), now)
        ensures now - Last(Of(log, ip)) == rules.failWindow
      {
        assert Tracked(rules, failTracker, ip, Of(log, ip), clock);
        if ip in failTracker {
          assert ip in failTracker.Keys - todo;
        }
      }
      r := false;
    }
  }

  /** When the address last failed (0 if its last attempt was no failure). */
  function Last(h: Attempts): Time {
    if h != [] && h[|h| - 1].Failure? then h[|h| - 1].at else 0
  }

  /** A middleware that serves one request after the other lets no address fail more than `maxFails` times
      within one window length without succeeding, whatever other addresses do. */
  lemma MiddlewareBoundsFailures(m: AuthMiddleware, ip: string, i: nat, j: nat)
    requires AllGuarded(m.rules, m.log) && m.rules.maxFails >= 1
    requires i <= j <= |Of(m.log, ip)| && forall k :: i <= k < j ==> Of(m.log, ip)[k].Failure?
    requires i < j ==> Of(m.log, ip)[j - 1].at - Of(m.log, ip)[i].at <= m.rules.failWindow
    ensures j - i <= m.rules.maxFails
  {
    WindowBound(m.rules, Of(m.log, ip), i, j);
  }
}
