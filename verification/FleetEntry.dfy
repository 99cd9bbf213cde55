/** How nodes got in: in every run each node comes from a token that had not expired when it was checked, and has
    the name it asked for and the role and region that the token grants. */
module FleetEntry {
  import opened FleetTypes
  import opened FleetStore
  import opened StaleNodes
  import opened Enrollments
  import opened FleetRuns

  // ---- what the history says ----

  /** The row with which the token was issued. Ids are drawn once, so there is at most one. */
  function IssuedRow(h: History, token: TokenId): Option<Token> {
    match h
    case Begin => None
    case Then(before, Issued(t, row)) => if t == token then Some(row) else IssuedRow(before, token)
    case Then(before, _) => IssuedRow(before, token)
  }

  datatype Entry = Entry(token: TokenId, admission: Admission, stamp: Time)

  /** The node's last enrollment. */
  function LastEntry(h: History, node: NodeId): Option<Entry> {
    match h
    case Begin => None
    case Then(before, Enrolled(n, token, stamp, _, admission)) =>
      if n == node then Some(Entry(token, admission, stamp)) else LastEntry(before, node)
    case Then(before, _) => LastEntry(before, node)
  }

  predicate Happened(h: History, e: Event) {
    h.Then? && (h.event == e || Happened(h.before, e))
  }

  // ---- what a token grants ----

  /** A token as read: issued so, apart from the uses counted since. */
  predicate Genuine(h: History, token: TokenId, row: Token) {
    IssuedRow(h, token).Some? && row == IssuedRow(h, token).value.(usedCount := row.usedCount)
  }

  /** The token was checked in time, before the timestamps were taken. */
  predicate InTime(h: History, e: Entry) {
    && IssuedRow(h, e.token).Some? && e.admission.checkedAt <= IssuedRow(h, e.token).value.expiresAt
    && e.admission.checkedAt <= e.stamp
  }

  /** The node is as requested and as the token grants. */
  predicate AsGranted(h: History, e: Entry, row: Node) {
    && IssuedRow(h, e.token).Some?
    && row.name == e.admission.req.name && row.name != "" && row.role == IssuedRow(h, e.token).value.role
    && row.region == if e.admission.req.region != "" then e.admission.req.region else IssuedRow(h, e.token).value.region
  }

  // ---- invariants ----

  predicate ThreadGenuine(h: History, t: Thread, clock: Time) {
    match t
    case EnrollRead(token, row, req) => Genuine(h, token, row) && req.name != ""
    case EnrollChecked(token, row, admission) =>
      Genuine(h, token, row) && admission.req.name != "" && admission.checkedAt <= row.expiresAt && admission.checkedAt <= clock
    case EnrollAdmitted(token, _, row, admission) =>
      var e := Entry(token, admission, row.lastHeartbeat); InTime(h, e) && AsGranted(h, e, row)
    case _ => true
  }

  ghost predicate TokensGenuine(s: State) {
    && (forall t <- s.db.tokens :: Genuine(s.history, t, s.db.tokens[t]))
    && (forall t: TokenId | t !in s.issued :: IssuedRow(s.history, t) == None)
  }

  ghost predicate ThreadsGenuine(s: State) {
    forall th <- s.threads :: ThreadGenuine(s.history, s.threads[th], s.clock)
  }

  predicate NodeEntered(h: History, id: NodeId, row: Node) {
    LastEntry(h, id).Some? && AsGranted(h, LastEntry(h, id).value, row)
  }

  ghost predicate NodesEntered(s: State) {
    forall id <- s.db.nodes :: NodeEntered(s.history, id, s.db.nodes[id])
  }

  ghost predicate EntriesInTime(h: History) {
    forall node, token, stamp, at, admission :: Happened(h, Enrolled(node, token, stamp, at, admission)) ==>
      InTime(h, Entry(token, admission, stamp))
  }

  /** What was issued stays issued as it was. */
  ghost predicate Extends(h: History, later: History) {
    forall t: TokenId :: IssuedRow(h, t).Some? ==> IssuedRow(later, t) == IssuedRow(h, t)
  }

  lemma HistoryGrows(limits: Limits, s: State, step: Step)
    requires TokensGenuine(s)
    ensures Extends(s.history, Apply(limits, s, step).history)
  {
  }

  /** A token row changes only by counting uses, and appears only when it is issued. */
  lemma TokenStep(limits: Limits, s: State, step: Step, t: TokenId)
    requires TokensGenuine(s) && t in Apply(limits, s, step).db.tokens
    ensures Genuine(Apply(limits, s, step).history, t, Apply(limits, s, step).db.tokens[t])
  {
    HistoryGrows(limits, s, step);
    match step
    case Advance(th, _, _) => if th in s.threads { WriteKeepsGrants(s.db, s.threads[th], t); }
    case _ =>
  }

  lemma WriteKeepsGrants(db: Tables, w: Thread, t: TokenId)
    requires t in ThreadWrite(db, w).tokens
    ensures var row := ThreadWrite(db, w).tokens[t]; t in db.tokens && row == db.tokens[t].(usedCount := row.usedCount)
  {
  }

  lemma TokensStep(limits: Limits, s: State, step: Step)
    requires TokensGenuine(s)
    ensures TokensGenuine(Apply(limits, s, step))
  {
    var after := Apply(limits, s, step);
    forall t | t in after.db.tokens
      ensures Genuine(after.history, t, after.db.tokens[t])
    {
      TokenStep(limits, s, step, t);
    }
  }

  lemma NextGenuine(s: State, t: Thread, newId: NodeId, key: Hash)
    requires ThreadGenuine(s.history, t, s.clock)
    ensures match ThreadNext(s, t, newId, key)
      case None => true
      case Some(next) => ThreadGenuine(s.history, next, s.clock)
  {
  }

  lemma ThreadLater(h: History, later: History, t: Thread, clock: Time, now: Time)
    requires ThreadGenuine(h, t, clock) && Extends(h, later) && clock <= now
    ensures ThreadGenuine(later, t, now)
  {
  }

  lemma ThreadsStep(limits: Limits, s: State, step: Step)
    requires TokensGenuine(s) && ThreadsGenuine(s)
    ensures ThreadsGenuine(Apply(limits, s, step))
  {
    var after := Apply(limits, s, step);
    HistoryGrows(limits, s, step);
    forall th | th in after.threads
      ensures ThreadGenuine(after.history, after.threads[th], after.clock)
    {
      if th in s.threads {
        ThreadLater(s.history, after.history, s.threads[th], s.clock, after.clock);
      }
      if step.Advance? && step.thread == th && th in s.threads {
        NextGenuine(s, s.threads[th], step.newId, step.key);
      }
    }
  }

  /** The step inserts the node that the thread admitted. */
  predicate Inserts(s: State, step: Step, id: NodeId) {
    && step.Advance? && step.thread in s.threads && s.threads[step.thread].EnrollAdmitted?
    && s.threads[step.thread].node == id && CanInsertNode(s.db, id, s.threads[step.thread].inserted)
  }

  predicate SameIdentity(a: Node, b: Node) {
    a.name == b.name && a.role == b.role && a.region == b.region
  }

  /** Only an insert changes who a node is and how it entered. */
  lemma RowStep(limits: Limits, s: State, step: Step, id: NodeId)
    requires id in Apply(limits, s, step).db.nodes
    ensures var row := Apply(limits, s, step).db.nodes[id];
      if Inserts(s, step, id) then row == StoredRow(s.threads[step.thread].inserted)
      else id in s.db.nodes && SameIdentity(row, s.db.nodes[id])
  {
    match step
    case Advance(th, _, _) =>
      if th in s.threads && !(s.threads[th].EnrollAdmitted? && s.threads[th].node == id) {
        WriteKeepsIdentity(s.db, s.threads[th], id);
      }
    case _ =>
  }

  lemma EntryStep(limits: Limits, s: State, step: Step, id: NodeId)
    ensures LastEntry(Apply(limits, s, step).history, id)
         == if Inserts(s, step, id)
            then var t := s.threads[step.thread]; Some(Entry(t.token, t.admission, t.inserted.lastHeartbeat))
            else LastEntry(s.history, id)
  {
  }

  lemma WriteKeepsIdentity(db: Tables, t: Thread, id: NodeId)
    requires id in ThreadWrite(db, t).nodes && !(t.EnrollAdmitted? && t.node == id)
    ensures var row := ThreadWrite(db, t).nodes[id];
      id in db.nodes && SameIdentity(row, db.nodes[id])
  {
  }

  lemma NodesStep(limits: Limits, s: State, step: Step)
    requires TokensGenuine(s) && ThreadsGenuine(s) && NodesEntered(s)
    ensures NodesEntered(Apply(limits, s, step))
  {
    var after := Apply(limits, s, step);
    HistoryGrows(limits, s, step);
    forall id | id in after.db.nodes
      ensures NodeEntered(after.history, id, after.db.nodes[id])
    {
      RowStep(limits, s, step, id);
      EntryStep(limits, s, step, id);
    }
  }

  /** A step adds at most one event. */
  lemma OneEvent(limits: Limits, s: State, step: Step)
    ensures var after := Apply(limits, s, step);
      after.history == s.history || (after.history.Then? && after.history.before == s.history)
  {
  }

  lemma EntriesStep(limits: Limits, s: State, step: Step)
    requires TokensGenuine(s) && ThreadsGenuine(s) && EntriesInTime(s.history)
    ensures EntriesInTime(Apply(limits, s, step).history)
  {
    var after := Apply(limits, s, step);
    HistoryGrows(limits, s, step);
    OneEvent(limits, s, step);
    forall node, token, stamp, at, admission | Happened(after.history, Enrolled(node, token, stamp, at, admission))
      ensures InTime(after.history, Entry(token, admission, stamp))
    {
      var e := Enrolled(node, token, stamp, at, admission);
      if !Happened(s.history, e) {
        assert after.history.event == e;
        EnrolledByThread(limits, s, step, e);
      }
    }
  }

  function Length(h: History): nat {
    if h.Begin? then 0 else Length(h.before) + 1
  }

  lemma NeverItsOwnPast(h: History, e: Event)
    ensures h != Then(h, e)
  {
    assert Length(Then(h, e)) == Length(h) + 1;
  }

  lemma EnrolledByThread(limits: Limits, s: State, step: Step, e: Event)
    requires e.Enrolled? && Apply(limits, s, step).history == Then(s.history, e)
    ensures step.Advance? && step.thread in s.threads
    ensures var t := s.threads[step.thread];
      t.EnrollAdmitted? && t.token == e.token && t.admission == e.admission && t.inserted.lastHeartbeat == e.stamp
  {
    NeverItsOwnPast(s.history, e);
  }

  lemma {:induction false} EntryAlways(limits: Limits, policy0: Policy, clock0: Time, steps: seq<Step>)
    ensures var s := After(limits, Start(policy0, clock0), steps);
      TokensGenuine(s) && ThreadsGenuine(s) && NodesEntered(s) && EntriesInTime(s.history)
  {
    if steps == [] {
    } else {
      var init, last := steps[..|steps| - 1], steps[|steps| - 1];
      EntryAlways(limits, policy0, clock0, init);
      var s := After(limits, Start(policy0, clock0), init);
      TokensStep(limits, s, last);
      ThreadsStep(limits, s, last);
      NodesStep(limits, s, last);
      EntriesStep(limits, s, last);
    }
  }

  // ---- main results ----

  /** In every run no node was ever created from a token that was past its stored expiry when it was checked. */
  lemma {:induction false} NobodyEntersLate(limits: Limits, policy0: Policy, clock0: Time, steps: seq<Step>,
                                            node: NodeId, token: TokenId, stamp: Time, at: Time, admission: Admission)
    requires Happened(After(limits, Start(policy0, clock0), steps).history, Enrolled(node, token, stamp, at, admission))
    ensures var h := After(limits, Start(policy0, clock0), steps).history;
      && IssuedRow(h, token).Some? && admission.checkedAt <= IssuedRow(h, token).value.expiresAt
      && admission.checkedAt <= stamp
  {
    EntryAlways(limits, policy0, clock0, steps);
  }

  /** In every run each node bears the name it asked for, the role of the token it came with, and the region it asked
      for or else the token's, whatever has become of the token. */
  lemma {:induction false} NodeIsAsGranted(limits: Limits, policy0: Policy, clock0: Time, steps: seq<Step>, id: NodeId)
    requires id in After(limits, Start(policy0, clock0), steps).db.nodes
    ensures var s := After(limits, Start(policy0, clock0), steps); var row := s.db.nodes[id];
      match LastEntry(s.history, id)
      case None => false
      case Some(e) =>
        && IssuedRow(s.history, e.token).Some?
        && row.name == e.admission.req.name && row.name != ""
        && row.role == IssuedRow(s.history, e.token).value.role
        && (e.admission.req.region != "" ==> row.region == e.admission.req.region)
        && (e.admission.req.region == "" ==> row.region == IssuedRow(s.history, e.token).value.region)
  {
    EntryAlways(limits, policy0, clock0, steps);
  }
}
