/** The overshoot of TokenYield really happens: `k` enrollments that read the token before any of them is
    counted all get through, on top of MaxUses - 1 earlier ones. */
module TokenTightness {
  import opened FleetTypes
  import opened FleetStore
  import opened StaleNodes
  import opened Enrollments
  import opened FleetRuns
  import opened FleetAtomicity
  import opened TokenBounds

  const REQ := EnrollRequest("n", "")

  /** Token 0 is used `used` times of `m`, nodes 0..n exist, and threads lo..hi have read the token in time. */
  ghost predicate Stage(s: State, now: Time, m: nat, n: nat, used: nat, lo: nat, hi: nat) {
    && s.clock == now && 0 in s.db.tokens
    && s.db.tokens[0].usedCount == used && s.db.tokens[0].maxUses == m && now <= s.db.tokens[0].expiresAt
    && (forall id <- s.db.nodes :: id < n && s.db.nodes[id].keyHash == id)
    && (forall id <- s.drawn :: id < n)
    && (forall th :: th in s.threads <==> lo <= th < hi)
    && (forall th <- s.threads :: s.threads[th].EnrollRead? && s.threads[th].token == 0 && Admits(s.threads[th].row, now))
  }

  lemma {:induction false} Interval(ths: set<nat>, lo: nat, hi: nat)
    requires lo <= hi && forall th <- ths :: lo <= th < hi
    ensures |ths| <= hi - lo
    decreases hi - lo
  {
    if lo == hi {
      assert ths == {};
    } else {
      Interval(ths - {lo}, lo + 1, hi);
      assert ths <= (ths - {lo}) + {lo};
    }
  }

  lemma StageInFlight(s: State, now: Time, m: nat, n: nat, used: nat, lo: nat, hi: nat)
    requires Stage(s, now, m, n, used, lo, hi) && lo <= hi
    ensures Count(s.threads, InFlightKind, 0) <= hi - lo
  {
    Interval(Those(s.threads, InFlightKind, 0), lo, hi);
  }

  lemma {:induction false} AtMostJoin(limits: Limits, s: State, first: seq<Step>, second: seq<Step>, k: nat)
    requires AtMostInFlight(limits, s, first, 0, k) && AtMostInFlight(limits, After(limits, s, first), second, 0, k)
    ensures AtMostInFlight(limits, s, first + second, 0, k)
    decreases |second|
  {
    if second == [] {
      assert first + second == first;
    } else {
      AfterSplit(limits, s, first, second);
      AtMostJoin(limits, s, first, second[..|second| - 1], k);
      assert (first + second)[..|first + second| - 1] == first + second[..|second| - 1];
    }
  }

  lemma AdvanceKeeps(limits: Limits, s: State, step: Step, k: nat)
    requires step.Advance? && Count(s.threads, InFlightKind, 0) <= k
    ensures Count(Apply(limits, s, step).threads, InFlightKind, 0) <= k
  {
    CountStep(limits, s, step, InFlightKind, 0);
  }

  /** Letting threads move on puts no new enrollment in flight. */
  lemma {:induction false} AdvancesKeep(limits: Limits, s: State, steps: seq<Step>, k: nat)
    requires forall i :: 0 <= i < |steps| ==> steps[i].Advance?
    requires Count(s.threads, InFlightKind, 0) <= k
    ensures AtMostInFlight(limits, s, steps, 0, k)
  {
    if steps == [] {
      AtMostNothing(limits, s, k);
    } else {
      var init := steps[..|steps| - 1];
      AdvancesKeep(limits, s, init, k);
      AdvanceKeeps(limits, After(limits, s, init), steps[|steps| - 1], k);
    }
  }

  /** Thread `lo` enrolls node `n`. */
  function Close(lo: nat, n: nat): seq<Step> {
    [Adv(lo, n, n), Adv(lo, n, n), Adv(lo, n, n), Adv(lo, n, n)]
  }

  lemma CloseOne(limits: Limits, s: State, now: Time, m: nat, n: nat, used: nat, lo: nat, hi: nat)
    requires Stage(s, now, m, n, used, lo, hi) && lo < hi
    ensures Stage(After(limits, s, Close(lo, n)), now, m, n + 1, used + 1, lo + 1, hi)
    ensures AtMostInFlight(limits, s, Close(lo, n), 0, hi - lo)
  {
    StageInFlight(s, now, m, n, used, lo, hi);
    AdvancesKeep(limits, s, Close(lo, n), hi - lo);
    EnrollThrough(limits, s, lo, n, n);
  }

  /** Nothing is needed to be where one is. */
  lemma StageHolds(limits: Limits, s: State, now: Time, m: nat, n: nat, used: nat, at: nat) returns (none: seq<Step>)
    requires Stage(s, now, m, n, used, at, at)
    ensures Stage(After(limits, s, none), now, m, n, used, at, at)
    ensures AtMostInFlight(limits, s, none, 0, 0)
  {
    none := [];
    StageInFlight(s, now, m, n, used, at, at);
    AtMostNothing(limits, s, 0);
  }

  lemma {:induction false} CloseAll(limits: Limits, s: State, now: Time, m: nat, n: nat, used: nat, lo: nat, hi: nat)
    returns (steps: seq<Step>)
    requires Stage(s, now, m, n, used, lo, hi) && lo <= hi
    ensures Stage(After(limits, s, steps), now, m, n + (hi - lo), used + (hi - lo), hi, hi)
    ensures AtMostInFlight(limits, s, steps, 0, hi - lo)
    decreases hi - lo
  {
    if lo == hi {
      steps := StageHolds(limits, s, now, m, n, used, lo);
    } else {
      CloseOne(limits, s, now, m, n, used, lo, hi);
      var rest := CloseAll(limits, After(limits, s, Close(lo, n)), now, m, n + 1, used + 1, lo + 1, hi);
      StageAfterMore(limits, s, Close(lo, n), rest, hi - lo, hi - lo - 1, now, m, n + (hi - lo), used + (hi - lo), hi);
      steps := Close(lo, n) + rest;
    }
  }

  /** A run to a stage after one with more in flight. */
  lemma StageAfterMore(limits: Limits, s: State, first: seq<Step>, second: seq<Step>, k: nat, fewer: nat,
                       now: Time, m: nat, n: nat, used: nat, hi: nat)
    requires fewer <= k
    requires AtMostInFlight(limits, s, first, 0, k)
    requires AtMostInFlight(limits, After(limits, s, first), second, 0, fewer)
    requires Stage(After(limits, After(limits, s, first), second), now, m, n, used, hi, hi)
    ensures Stage(After(limits, s, first + second), now, m, n, used, hi, hi)
    ensures AtMostInFlight(limits, s, first + second, 0, k)
  {
    AtMostWeaken(limits, After(limits, s, first), second, fewer, k);
    StageJoin(limits, s, first, second, k, now, m, n, used, hi, hi);
  }

  lemma OpenOne(limits: Limits, s: State, now: Time, m: nat, n: nat, used: nat, hi: nat)
    requires Stage(s, now, m, n, used, 0, hi) && used < m
    ensures Stage(After(limits, s, [StartEnroll(hi, 0, REQ)]), now, m, n, used, 0, hi + 1)
    ensures AtMostInFlight(limits, s, [StartEnroll(hi, 0, REQ)], 0, hi + 1)
  {
    var steps := [StartEnroll(hi, 0, REQ)];
    AfterOne(limits, s, steps[0]);
    var s1 := After(limits, s, steps);
    StageInFlight(s, now, m, n, used, 0, hi);
    StageInFlight(s1, now, m, n, used, 0, hi + 1);
    AtMostNothing(limits, s, hi + 1);
    assert steps[..|steps| - 1] == [];
  }

  /** A run to a stage and a continuation to another. */
  lemma StageJoin(limits: Limits, s: State, first: seq<Step>, second: seq<Step>, k: nat,
                  now: Time, m: nat, n: nat, used: nat, lo: nat, hi: nat)
    requires AtMostInFlight(limits, s, first, 0, k) && AtMostInFlight(limits, After(limits, s, first), second, 0, k)
    requires Stage(After(limits, After(limits, s, first), second), now, m, n, used, lo, hi)
    ensures Stage(After(limits, s, first + second), now, m, n, used, lo, hi) && AtMostInFlight(limits, s, first + second, 0, k)
  {
    AfterSplit(limits, s, first, second);
    AtMostJoin(limits, s, first, second, k);
  }

  lemma AtMostNothing(limits: Limits, s: State, k: nat)
    requires Count(s.threads, InFlightKind, 0) <= k
    ensures After(limits, s, []) == s && AtMostInFlight(limits, s, [], 0, k)
  {
  }

  lemma OpenMore(limits: Limits, s: State, now: Time, m: nat, n: nat, used: nat, k: nat, init: seq<Step>)
    returns (steps: seq<Step>)
    requires k >= 1 && Stage(After(limits, s, init), now, m, n, used, 0, k - 1) && used < m
    requires AtMostInFlight(limits, s, init, 0, k - 1)
    ensures Stage(After(limits, s, steps), now, m, n, used, 0, k)
    ensures AtMostInFlight(limits, s, steps, 0, k)
  {
    steps := init + [StartEnroll(k - 1, 0, REQ)];
    OpenOne(limits, After(limits, s, init), now, m, n, used, k - 1);
    AtMostWeaken(limits, s, init, k - 1, k);
    StageJoin(limits, s, init, [StartEnroll(k - 1, 0, REQ)], k, now, m, n, used, 0, k);
  }

  lemma {:induction false} OpenAll(limits: Limits, s: State, now: Time, m: nat, n: nat, used: nat, k: nat)
    returns (steps: seq<Step>)
    requires Stage(s, now, m, n, used, 0, 0) && used < m
    ensures Stage(After(limits, s, steps), now, m, n, used, 0, k)
    ensures AtMostInFlight(limits, s, steps, 0, k)
    decreases k
  {
    if k == 0 {
      steps := StageHolds(limits, s, now, m, n, used, 0);
    } else {
      var init := OpenAll(limits, s, now, m, n, used, k - 1);
      steps := OpenMore(limits, s, now, m, n, used, k, init);
    }
  }

  /** One enrollment from start to end. */
  function Single(n: nat): seq<Step> {
    [StartEnroll(0, 0, REQ)] + Close(0, n)
  }

  lemma EnrollOne(limits: Limits, s: State, now: Time, m: nat, n: nat)
    requires Stage(s, now, m, n, n, 0, 0) && n < m
    ensures Stage(After(limits, s, Single(n)), now, m, n + 1, n + 1, 0, 0)
    ensures AtMostInFlight(limits, s, Single(n), 0, 1)
  {
    var open := [StartEnroll(0, 0, REQ)];
    OpenOne(limits, s, now, m, n, n, 0);
    CloseOne(limits, After(limits, s, open), now, m, n, n, 0, 1);
    StageEmpty(After(limits, After(limits, s, open), Close(0, n)), now, m, n + 1, n + 1);
    StageJoin(limits, s, open, Close(0, n), 1, now, m, n + 1, n + 1, 0, 0);
  }

  /** With nobody in flight the numbering can start again. */
  lemma StageEmpty(s: State, now: Time, m: nat, n: nat, used: nat)
    requires Stage(s, now, m, n, used, 1, 1)
    ensures Stage(s, now, m, n, used, 0, 0)
  {
  }

  lemma SeriallyMore(limits: Limits, s: State, now: Time, m: nat, count: nat, init: seq<Step>) returns (steps: seq<Step>)
    requires Stage(After(limits, s, init), now, m, count, count, 0, 0) && count < m && AtMostInFlight(limits, s, init, 0, 1)
    ensures Stage(After(limits, s, steps), now, m, count + 1, count + 1, 0, 0)
    ensures AtMostInFlight(limits, s, steps, 0, 1)
  {
    steps := init + Single(count);
    EnrollOne(limits, After(limits, s, init), now, m, count);
    StageJoin(limits, s, init, Single(count), 1, now, m, count + 1, count + 1, 0, 0);
  }

  lemma {:induction false} Serially(limits: Limits, s: State, now: Time, m: nat, count: nat)
    returns (steps: seq<Step>)
    requires Stage(s, now, m, 0, 0, 0, 0) && count <= m
    ensures Stage(After(limits, s, steps), now, m, count, count, 0, 0)
    ensures AtMostInFlight(limits, s, steps, 0, 1)
    decreases count
  {
    if count == 0 {
      steps := StageHolds(limits, s, now, m, 0, 0, 0);
      AtMostWeaken(limits, s, steps, 0, 1);
    } else {
      var init := Serially(limits, s, now, m, count - 1);
      steps := SeriallyMore(limits, s, now, m, count - 1, init);
    }
  }

  lemma {:induction false} AtMostWeaken(limits: Limits, s: State, steps: seq<Step>, k: nat, l: nat)
    requires AtMostInFlight(limits, s, steps, 0, k) && k <= l
    ensures AtMostInFlight(limits, s, steps, 0, l)
  {
    if steps != [] {
      AtMostWeaken(limits, s, steps[..|steps| - 1], k, l);
    }
  }

  lemma TokenIssued(limits: Limits, policy0: Policy, clock0: Time, m: nat)
    requires m >= 1
    ensures var steps := [CreateToken(0, 0, Server, "", m, 3600)];
      && Stage(After(limits, Start(policy0, clock0), steps), clock0, m, 0, 0, 0, 0)
      && AtMostInFlight(limits, Start(policy0, clock0), steps, 0, 0)
  {
    var steps := [CreateToken(0, 0, Server, "", m, 3600)];
    var s0 := Start(policy0, clock0);
    AfterOne(limits, s0, steps[0]);
    assert Those(s0.threads, InFlightKind, 0) == {};
    AtMostNothing(limits, s0, 0);
    assert steps[..|steps| - 1] == [];
  }

  /** For every limit and every degree of concurrency some run reaches the bound of TokenYield exactly. */
  lemma {:induction false} TokenBoundIsTight(limits: Limits, policy0: Policy, clock0: Time, m: nat, k: nat)
    returns (steps: seq<Step>)
    requires m >= 1 && k >= 1
    ensures AtMostInFlight(limits, Start(policy0, clock0), steps, 0, k)
    ensures var s := After(limits, Start(policy0, clock0), steps);
      0 in s.db.tokens && s.db.tokens[0].maxUses == m && s.db.tokens[0].usedCount == m + k - 1
  {
    var s0 := Start(policy0, clock0);
    var first := [CreateToken(0, 0, Server, "", m, 3600)];
    TokenIssued(limits, policy0, clock0, m);
    var s1 := After(limits, s0, first);
    var rest := Overshoot(limits, s1, clock0, m, k);
    AtMostWeaken(limits, s0, first, 0, k);
    StageJoin(limits, s0, first, rest, k, clock0, m, m + k - 1, m + k - 1, k, k);
    steps := first + rest;
  }

  /** All uses but one serially, then `k` enrollments together. */
  lemma Overshoot(limits: Limits, s: State, now: Time, m: nat, k: nat) returns (steps: seq<Step>)
    requires Stage(s, now, m, 0, 0, 0, 0) && m >= 1 && k >= 1
    ensures Stage(After(limits, s, steps), now, m, m + k - 1, m + k - 1, k, k)
    ensures AtMostInFlight(limits, s, steps, 0, k)
  {
    var first := Serially(limits, s, now, m, m - 1);
    var s1 := After(limits, s, first);
    AtMostWeaken(limits, s, first, 1, k);
    var rest := Together(limits, s1, now, m, k);
    StageJoin(limits, s, first, rest, k, now, m, m + k - 1, m + k - 1, k, k);
    steps := first + rest;
  }

  lemma Together(limits: Limits, s: State, now: Time, m: nat, k: nat) returns (steps: seq<Step>)
    requires m >= 1 && Stage(s, now, m, m - 1, m - 1, 0, 0) && k >= 1
    ensures Stage(After(limits, s, steps), now, m, m + k - 1, m + k - 1, k, k)
    ensures AtMostInFlight(limits, s, steps, 0, k)
  {
    var open := OpenAll(limits, s, now, m, m - 1, m - 1, k);
    var close := CloseAll(limits, After(limits, s, open), now, m, m - 1, m - 1, 0, k);
    StageJoin(limits, s, open, close, k, now, m, m + k - 1, m + k - 1, k, k);
    steps := open + close;
  }
}
