/** How many nodes an enrollment token can yield. The use check and the use count are separate statements,
    so enrollments in flight together can overshoot the limit, by at most one less than their number. */
module TokenBounds {
  import opened FleetTypes
  import opened FleetStore
  import opened StaleNodes
  import opened Enrollments
  import opened FleetRuns

  /** In flight at all; in flight and certain to pass the use check; node created but use not counted yet. */
  datatype Kind = InFlightKind | LiveKind | UncountedKind

  predicate Is(kind: Kind, t: Thread, token: TokenId) {
    match t
    case EnrollRead(tok, row, _) =>
      tok == token && (kind == InFlightKind || (kind == LiveKind && row.usedCount < row.maxUses))
    case EnrollChecked(tok, _, _) => tok == token && kind != UncountedKind
    case EnrollAdmitted(tok, _, _, _) => tok == token && kind != UncountedKind
    case EnrollCreated(tok) => tok == token
    case _ => false
  }

  function Those(threads: map<nat, Thread>, kind: Kind, token: TokenId): set<nat> {
    set th | th in threads && Is(kind, threads[th], token)
  }

  function Count(threads: map<nat, Thread>, kind: Kind, token: TokenId): nat {
    |Those(threads, kind, token)|
  }

  function One(b: bool): nat {
    if b then 1 else 0
  }

  lemma CountPut(threads: map<nat, Thread>, th: nat, t: Thread, kind: Kind, token: TokenId)
    requires th !in threads
    ensures Count(threads[th := t], kind, token) == Count(threads, kind, token) + One(Is(kind, t, token))
  {
    var before, after := Those(threads, kind, token), Those(threads[th := t], kind, token);
    assert after == if Is(kind, t, token) then before + {th} else before;
  }

  lemma CountDrop(threads: map<nat, Thread>, th: nat, kind: Kind, token: TokenId)
    requires th in threads
    ensures Count(threads, kind, token) == Count(threads - {th}, kind, token) + One(Is(kind, threads[th], token))
  {
    CountPut(threads - {th}, th, threads[th], kind, token);
    assert (threads - {th})[th := threads[th]] == threads;
  }

  lemma CountMove(threads: map<nat, Thread>, th: nat, t: Thread, kind: Kind, token: TokenId)
    requires th in threads
    ensures Count(threads[th := t], kind, token) + One(Is(kind, threads[th], token))
         == Count(threads, kind, token) + One(Is(kind, t, token))
  {
    CountDrop(threads, th, kind, token);
    CountPut(threads - {th}, th, t, kind, token);
    assert (threads - {th})[th := t] == threads[th := t];
  }

  lemma LiveAreInFlight(threads: map<nat, Thread>, token: TokenId)
    ensures Count(threads, UncountedKind, token) <= Count(threads, LiveKind, token) <= Count(threads, InFlightKind, token)
  {
    Subset(Those(threads, UncountedKind, token), Those(threads, LiveKind, token));
    Subset(Those(threads, LiveKind, token), Those(threads, InFlightKind, token));
  }

  lemma {:induction false} Subset(a: set<nat>, b: set<nat>)
    requires a <= b
    ensures |a| <= |b|
  {
    if a != {} {
      var x :| x in a;
      Subset(a - {x}, b - {x});
    }
  }

  // ---- what the history counts ----

  /** Nodes created from the token. */
  function Created(h: History, token: TokenId): nat {
    match h
    case Begin => 0
    case Then(before, Enrolled(_, tok, _, _, _)) => Created(before, token) + One(tok == token)
    case Then(before, _) => Created(before, token)
  }

  /** Uses never counted because the enrolling request was cut off after the node was created. */
  function Lost(h: History, token: TokenId): nat {
    match h
    case Begin => 0
    case Then(before, UseLost(tok)) => Lost(before, token) + One(tok == token)
    case Then(before, _) => Lost(before, token)
  }

  predicate OnToken(t: Thread, token: TokenId) {
    Is(InFlightKind, t, token)
  }

  /** Ids are drawn once; a stored token allows at least one use. */
  ghost predicate Issued(s: State) {
    && (forall t <- s.db.tokens :: t in s.issued && s.db.tokens[t].maxUses >= 1)
    && (forall th <- s.threads :: forall t | OnToken(s.threads[th], t) :: t in s.issued)
    && (forall th <- s.threads :: s.threads[th].EnrollRead? ==> s.threads[th].row.maxUses >= 1)
    && (forall t: TokenId | t !in s.issued :: Created(s.history, t) == 0 && Lost(s.history, t) == 0)
  }

  /** What one step adds to the two counts. */
  lemma CountsStep(limits: Limits, s: State, step: Step, token: TokenId)
    ensures var after := Apply(limits, s, step);
      && Created(after.history, token) == Created(s.history, token) + One(Creates(s, step, token))
      && Lost(after.history, token) == Lost(s.history, token) + One(Loses(s, step, token))
  {
  }

  predicate Creates(s: State, step: Step, token: TokenId) {
    && step.Advance? && step.thread in s.threads && s.threads[step.thread].EnrollAdmitted?
    && s.threads[step.thread].token == token
    && CanInsertNode(s.db, s.threads[step.thread].node, s.threads[step.thread].inserted)
  }

  predicate Loses(s: State, step: Step, token: TokenId) {
    step.Abandon? && step.thread in s.threads && s.threads[step.thread] == EnrollCreated(token)
  }

  lemma NextOnToken(s: State, t: Thread, newId: NodeId, key: Hash)
    ensures match ThreadNext(s, t, newId, key)
      case None => true
      case Some(next) => !next.EnrollRead? && forall token | OnToken(next, token) :: OnToken(t, token)
  {
  }

  lemma IssuedThreads(limits: Limits, s: State, step: Step)
    requires Issued(s)
    ensures var after := Apply(limits, s, step);
      && s.issued <= after.issued
      && (forall th <- after.threads :: forall t | OnToken(after.threads[th], t) :: t in after.issued)
      && (forall th <- after.threads :: after.threads[th].EnrollRead? ==> after.threads[th].row.maxUses >= 1)
  {
    match step
    case Advance(th, newId, key) => if th in s.threads { NextOnToken(s, s.threads[th], newId, key); }
    case _ =>
  }

  lemma TouchedIsIssued(s: State, step: Step, token: TokenId)
    requires Issued(s)
    ensures Creates(s, step, token) || Loses(s, step, token) ==> token in s.issued
  {
    if Creates(s, step, token) || Loses(s, step, token) {
      assert OnToken(s.threads[step.thread], token);
    }
  }

  /** Only a counting thread touches the tokens. */
  lemma WriteTokens(db: Tables, t: Thread)
    ensures ThreadWrite(db, t).tokens == if t.EnrollCreated? then CountUse(db, t.token).tokens else db.tokens
  {
  }

  lemma ScanTokens(limits: Limits, db: Tables, id: NodeId, row: Node, now: Time)
    ensures ScanWrite(limits, db, id, row, now).tokens == db.tokens
  {
  }

  lemma IssuedTokens(limits: Limits, s: State, step: Step)
    requires Issued(s)
    ensures var after := Apply(limits, s, step);
      forall t <- after.db.tokens :: t in after.issued && after.db.tokens[t].maxUses >= 1
  {
    match step
    case Advance(th, newId, key) => if th in s.threads { WriteTokens(s.db, s.threads[th]); }
    case ScanStep =>
      if s.scan.Writing? && s.scan.todo != [] { ScanTokens(limits, s.db, s.scan.todo[0].0, s.scan.todo[0].1, s.scan.now); }
    case _ =>
  }

  lemma {:induction false} IssuedStep(limits: Limits, s: State, step: Step)
    requires Issued(s)
    ensures Issued(Apply(limits, s, step))
  {
    var after := Apply(limits, s, step);
    IssuedThreads(limits, s, step);
    IssuedTokens(limits, s, step);
    forall t: TokenId | t !in after.issued
      ensures Created(after.history, t) == 0 && Lost(after.history, t) == 0
    {
      CountsStep(limits, s, step, t);
      TouchedIsIssued(s, step, t);
    }
  }

  /** Nodes created from a stored token: those counted, those still to be counted, and those lost. */
  ghost predicate Balanced(s: State, token: TokenId) {
    token in s.db.tokens ==>
      Created(s.history, token) ==
        s.db.tokens[token].usedCount + Count(s.threads, UncountedKind, token) + Lost(s.history, token)
  }

  lemma NobodyOnFreshToken(s: State, token: TokenId, kind: Kind)
    requires Issued(s) && token !in s.issued
    ensures Count(s.threads, kind, token) == 0
  {
    forall th | th in s.threads
      ensures !Is(kind, s.threads[th], token)
    {
      assert Is(kind, s.threads[th], token) ==> OnToken(s.threads[th], token);
    }
    assert Those(s.threads, kind, token) == {};
  }

  /** How one step changes a thread count. */
  lemma CountStep(limits: Limits, s: State, step: Step, kind: Kind, token: TokenId)
    ensures var after := Apply(limits, s, step);
      Count(after.threads, kind, token) + One(Leaves(limits, s, step, kind, token))
        == Count(s.threads, kind, token) + One(Joins(limits, s, step, kind, token))
  {
    match step
    case StartEnroll(th, tok, req) =>
      if th !in s.threads && tok in s.db.tokens { CountPut(s.threads, th, EnrollRead(tok, s.db.tokens[tok], req), kind, token); }
    case StartHeartbeat(th, node) => if th !in s.threads { CountPut(s.threads, th, Beating(node, s.clock), kind, token); }
    case StartReport(th, node, report) => if th !in s.threads { CountPut(s.threads, th, ReportReceived(node, report), kind, token); }
    case Advance(th, newId, key) =>
      if Moves(s, step) {
        match ThreadNext(s, s.threads[th], newId, key)
        case Some(next) => CountMove(s.threads, th, next, kind, token);
        case None => CountDrop(s.threads, th, kind, token);
      }
    case Abandon(th) => if th in s.threads { CountDrop(s.threads, th, kind, token); }
    case _ =>
  }

  /** The step advances a thread; an id that was drawn before cannot be drawn again. */
  predicate Moves(s: State, step: Step) {
    step.Advance? && step.thread in s.threads && (s.threads[step.thread].EnrollChecked? ==> step.newId !in s.drawn)
  }

  /** The step takes a thread out of (the old phase of) the kind. */
  ghost predicate Leaves(limits: Limits, s: State, step: Step, kind: Kind, token: TokenId) {
    (Moves(s, step) || (step.Abandon? && step.thread in s.threads)) && Is(kind, s.threads[step.thread], token)
  }

  /** The step puts a thread into (a new phase of) the kind. */
  ghost predicate Joins(limits: Limits, s: State, step: Step, kind: Kind, token: TokenId) {
    match step
    case StartEnroll(th, tok, req) =>
      req.name != "" && tok in s.db.tokens && th !in s.threads && Is(kind, EnrollRead(tok, s.db.tokens[tok], req), token)
    case Advance(th, newId, key) =>
      Moves(s, step) &&
      match ThreadNext(s, s.threads[th], newId, key) { case Some(next) => Is(kind, next, token) case None => false }
    case _ => false
  }

  /** The step counts a use of the token. */
  predicate Counts(s: State, step: Step, token: TokenId) {
    step.Advance? && step.thread in s.threads && s.threads[step.thread] == EnrollCreated(token)
  }

  /** What a step does to the token's row. */
  lemma RowStep(limits: Limits, s: State, step: Step, token: TokenId)
    requires Issued(s) && token in Apply(limits, s, step).db.tokens
    ensures var row := Apply(limits, s, step).db.tokens[token];
      if token in s.db.tokens
      then row.maxUses == s.db.tokens[token].maxUses && row.usedCount == s.db.tokens[token].usedCount + One(Counts(s, step, token))
      else step.CreateToken? && step.id == token && token !in s.issued && row.usedCount == 0 && row.maxUses >= 1
  {
    match step
    case Advance(th, newId, key) => if th in s.threads { WriteTokens(s.db, s.threads[th]); }
    case ScanStep =>
      if s.scan.Writing? && s.scan.todo != [] { ScanTokens(limits, s.db, s.scan.todo[0].0, s.scan.todo[0].1, s.scan.now); }
    case _ =>
  }

  lemma UncountedMoves(limits: Limits, s: State, step: Step, token: TokenId)
    ensures One(Joins(limits, s, step, UncountedKind, token)) + One(Counts(s, step, token)) + One(Loses(s, step, token))
         == One(Leaves(limits, s, step, UncountedKind, token)) + One(Creates(s, step, token))
  {
  }

  lemma BalancedStep(limits: Limits, s: State, step: Step, token: TokenId)
    requires Issued(s) && Balanced(s, token)
    ensures Balanced(Apply(limits, s, step), token)
  {
    if token in Apply(limits, s, step).db.tokens {
      CountStep(limits, s, step, UncountedKind, token);
      CountsStep(limits, s, step, token);
      UncountedMoves(limits, s, step, token);
      RowStep(limits, s, step, token);
      if token !in s.db.tokens {
        NobodyOnFreshToken(s, token, UncountedKind);
      }
    }
  }

  // ---- the bound ----

  /** No moment of the run has more than `k` enrollments in flight on the token. */
  ghost predicate AtMostInFlight(limits: Limits, s0: State, steps: seq<Step>, token: TokenId, k: nat) {
    && Count(After(limits, s0, steps).threads, InFlightKind, token) <= k
    && (steps != [] ==> AtMostInFlight(limits, s0, steps[..|steps| - 1], token, k))
  }

  ghost predicate WithinBound(s: State, token: TokenId, k: nat) {
    token in s.db.tokens ==>
      s.db.tokens[token].usedCount + Count(s.threads, LiveKind, token) <= s.db.tokens[token].maxUses + k - 1
  }

  /** Only starting an enrollment on a token with uses left adds to those that will pass the check. */
  lemma LiveMoves(limits: Limits, s: State, step: Step, token: TokenId)
    requires Issued(s)
    ensures
      || One(Joins(limits, s, step, LiveKind, token)) + One(Counts(s, step, token)) <= One(Leaves(limits, s, step, LiveKind, token))
      || (step.StartEnroll? && token in s.db.tokens && s.db.tokens[token].usedCount < s.db.tokens[token].maxUses)
  {
  }

  lemma BoundStep(limits: Limits, s: State, step: Step, token: TokenId, k: nat)
    requires k >= 1 && Issued(s) && WithinBound(s, token, k)
    requires Count(Apply(limits, s, step).threads, InFlightKind, token) <= k
    ensures WithinBound(Apply(limits, s, step), token, k)
  {
    if token in Apply(limits, s, step).db.tokens {
      CountStep(limits, s, step, LiveKind, token);
      LiveAreInFlight(Apply(limits, s, step).threads, token);
      LiveMoves(limits, s, step, token);
      RowStep(limits, s, step, token);
      if token !in s.db.tokens {
        NobodyOnFreshToken(s, token, LiveKind);
      }
    }
  }

  lemma {:induction false} TokensAlways(limits: Limits, policy0: Policy, clock0: Time, steps: seq<Step>,
                                        token: TokenId, k: nat)
    ensures var s := After(limits, Start(policy0, clock0), steps);
      && Issued(s) && Balanced(s, token)
      && (k >= 1 && AtMostInFlight(limits, Start(policy0, clock0), steps, token, k) ==> WithinBound(s, token, k))
  {
    if steps == [] {
    } else {
      var init, last := steps[..|steps| - 1], steps[|steps| - 1];
      var s := After(limits, Start(policy0, clock0), init);
      TokensAlways(limits, policy0, clock0, init, token, k);
      IssuedStep(limits, s, last);
      BalancedStep(limits, s, last, token);
      if k >= 1 && AtMostInFlight(limits, Start(policy0, clock0), steps, token, k) {
        BoundStep(limits, s, last, token, k);
      }
    }
  }

  /** With at most `k` enrollments on a token in flight at any time, the uses counted and those of
      enrollments that passed the check stay within MaxUses + k - 1; every node created from the token is
      counted, about to be counted, or was lost to a cut-off request; serial enrollment respects MaxUses. */
  lemma TokenYield(limits: Limits, policy0: Policy, clock0: Time, steps: seq<Step>, token: TokenId, k: nat)
    requires k >= 1 && AtMostInFlight(limits, Start(policy0, clock0), steps, token, k)
    requires token in After(limits, Start(policy0, clock0), steps).db.tokens
    ensures var s := After(limits, Start(policy0, clock0), steps); var row := s.db.tokens[token];
      && row.usedCount + Count(s.threads, LiveKind, token) <= row.maxUses + k - 1
      && Created(s.history, token) == row.usedCount + Count(s.threads, UncountedKind, token) + Lost(s.history, token)
      && Created(s.history, token) <= row.maxUses + k - 1 + Lost(s.history, token)
      && (k == 1 ==> row.usedCount <= row.maxUses)
  {
    TokensAlways(limits, policy0, clock0, steps, token, k);
    LiveAreInFlight(After(limits, Start(policy0, clock0), steps).threads, token);
  }
}
