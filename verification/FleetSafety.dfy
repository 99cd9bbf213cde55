/** What every run of the fleet controller keeps, whatever the interleaving. */
module FleetSafety {
  import opened FleetTypes
  import opened FleetStore
  import opened CompliancePolicy
  import opened StaleNodes
  import opened FleetRuns

  type Views = map<NodeId, View>

  // ---- times ----

  /** The stored heartbeat is a truncated stamp, the stamp lies before the last contact, and that in the past. */
  predicate ViewTimely(v: View, clock: Time) {
    && v.contact.Some? && v.stamp.Some?
    && v.lastHeartbeat == Stored(v.stamp.value)
    && v.stamp.value <= v.contact.value <= clock
  }

  ghost predicate Timely(b: Views, clock: Time) {
    forall id <- b :: ViewTimely(b[id], clock)
  }

  predicate ThreadTimely(t: Thread, clock: Time) {
    match t
    case EnrollAdmitted(_, _, row, _) => row.lastHeartbeat <= clock
    case Beating(_, stamp) => stamp <= clock
    case ReportStamped(_, _, stamp) => stamp <= clock
    case _ => true
  }

  ghost predicate ThreadsTimely(threads: map<nat, Thread>, clock: Time) {
    forall th <- threads :: ThreadTimely(threads[th], clock)
  }

  predicate EffectTimely(e: Effect, now: Time) {
    match e
    case Insert(_, row) => row.lastHeartbeat <= now
    case Heartbeat(_, stamp) => stamp <= now
    case _ => true
  }

  lemma TimelyEffect(b: Views, e: Effect, now: Time)
    requires Timely(b, now) && EffectTimely(e, now)
    ensures Timely(ApplyEffect(b, e, now), now)
  {
  }

  // ---- freshness ----

  /** Nobody is online whose last contact is older than the limit allowed at time `at`. */
  ghost predicate FreshSince(limits: Limits, b: Views, at: Time) {
    forall id <- b :: b[id].status == Online ==> b[id].contact.Some? && b[id].contact.value + limits.degradedAfter >= at
  }

  /** The listing holds the row with the heartbeat it still has, as an online row. */
  ghost predicate InListing(rows: seq<(NodeId, Node)>, id: NodeId, v: View) {
    exists r <- rows :: r.0 == id && r.1.status == Online && r.1.lastHeartbeat == v.lastHeartbeat
  }

  /** Online and not heard of since `at`. */
  predicate Silent(v: View, at: Time) {
    v.status == Online && v.contact.Some? && v.contact.value < at
  }

  ghost predicate ScanSound(limits: Limits, b: Views, scan: Scan, clock: Time) {
    match scan
    case Waiting => true
    case Listed(at, rows) => at <= clock && forall id <- b :: Silent(b[id], at) ==> InListing(rows, id, b[id])
    case Writing(at, now, todo) =>
      && at <= now <= clock
      && forall id <- b :: Silent(b[id], at) ==> InListing(todo, id, b[id]) || b[id].lastHeartbeat + limits.degradedAfter >= now
  }

  ghost predicate PassSound(limits: Limits, b: Views, h: History, clock: Time) {
    LastPass(h).Some? ==> LastPass(h).value <= clock && FreshSince(limits, b, LastPass(h).value)
  }

  /** No effect other than a fresh contact turns a node online. */
  predicate EffectDemotes(e: Effect) {
    e.Demote? ==> e.status != Online
  }

  lemma FreshEffect(limits: Limits, b: Views, e: Effect, now: Time, at: Time)
    requires FreshSince(limits, b, at) && at <= now && EffectDemotes(e)
    ensures FreshSince(limits, ApplyEffect(b, e, now), at)
  {
  }

  /** A node that is silent after the effect was silent before, with the same heartbeat. */
  lemma SilentBefore(b: Views, e: Effect, now: Time, at: Time, id: NodeId)
    requires at <= now && EffectDemotes(e)
    requires id in ApplyEffect(b, e, now) && Silent(ApplyEffect(b, e, now)[id], at)
    ensures id in b && Silent(b[id], at) && b[id].lastHeartbeat == ApplyEffect(b, e, now)[id].lastHeartbeat
  {
  }

  lemma ScanEffect(limits: Limits, b: Views, scan: Scan, e: Effect, now: Time)
    requires ScanSound(limits, b, scan, now) && EffectDemotes(e)
    ensures ScanSound(limits, ApplyEffect(b, e, now), scan, now)
  {
    var after := ApplyEffect(b, e, now);
    if !scan.Waiting? {
      forall id | id in after && Silent(after[id], scan.at)
        ensures id in b && Silent(b[id], scan.at) && b[id].lastHeartbeat == after[id].lastHeartbeat
      {
        SilentBefore(b, e, now, scan.at, id);
      }
    }
  }

  lemma ScanList(limits: Limits, s: State, order: seq<NodeId>)
    requires s.scan.Waiting? && IsListing(s.db.nodes, order)
    ensures ScanSound(limits, Board(s), Apply(limits, s, Step.ScanList(order)).scan, s.clock)
  {
    var rows := Apply(limits, s, Step.ScanList(order)).scan.rows;
    forall id | id in Board(s) && Silent(Board(s)[id], s.clock)
      ensures InListing(rows, id, Board(s)[id])
    {
      var i :| 0 <= i < |order| && order[i] == id;
      assert rows[i] == (id, s.db.nodes[id]);
    }
  }

  /** Writing one listed row settles every node the listing described correctly. */
  lemma ScanWriteSound(limits: Limits, b: Views, scan: Scan, clock: Time, e: Effect)
    requires scan.Writing? && scan.todo != [] && ScanSound(limits, b, scan, clock)
    requires e == match NewStatus(limits, scan.todo[0].1, scan.now)
                  case Some(status) => Demote(scan.todo[0].0, status)
                  case None => Nothing
    ensures ScanSound(limits, ApplyEffect(b, e, clock), scan.(todo := scan.todo[1..]), clock)
  {
    var after := ApplyEffect(b, e, clock);
    forall id | id in after && Silent(after[id], scan.at)
      ensures InListing(scan.todo[1..], id, after[id]) || after[id].lastHeartbeat + limits.degradedAfter >= scan.now
    {
      SilentBefore(b, e, clock, scan.at, id);
      if InListing(scan.todo, id, b[id]) {
        var r :| r in scan.todo && r.0 == id && r.1.status == Online && r.1.lastHeartbeat == b[id].lastHeartbeat;
        if r != scan.todo[0] {
          assert r in scan.todo[1..];
        }
      }
    }
  }

  // ---- verdicts and statuses ----

  /** A finished evaluation opened under a policy that was not disabled and looked at every item. */
  predicate Complete(e: Evaluation) {
    e.start.mode != Disabled && |e.seen| == |Items(e.report)|
  }

  /** The compliance column is the verdict of the last evaluation since enrollment. */
  ghost predicate ViewJudged(v: View) {
    match v.verdict
    case None => v.compliance == Unknown
    case Some(e) => Complete(e) && v.compliance == if MeetsEach(e.seen, e.report) then Compliant else NonCompliant
  }

  /** The status is the one written last, and the monitor never writes online. */
  predicate ViewWritten(v: View) {
    && v.writer.Some? && v.status == Wrote(v.writer.value) && KnownStatus(v.status)
    && (v.writer.value.ByMonitor? ==> v.status != Online)
  }

  predicate KnownStatus(status: NodeStatus) {
    status == Online || status == Degraded || status == Offline
  }

  ghost predicate Labelled(b: Views) {
    forall id <- b :: ViewJudged(b[id]) && ViewWritten(b[id])
  }

  ghost predicate ThreadLabelled(t: Thread) {
    match t
    case EnrollAdmitted(_, _, row, _) => row.status == Online
    case ReportLooking(_, report, start, seen, compliant) => Looked(report, start, seen, compliant)
    case _ => true
  }

  /** The flag of an evaluation under way: every item so far passed under the policy it met. */
  ghost predicate Looked(report: Report, start: Policy, seen: seq<Policy>, compliant: bool) {
    && start.mode != Disabled && |seen| <= |Items(report)|
    && (compliant <==> forall i :: 0 <= i < |seen| ==> Clears(seen[i], Items(report)[i]))
  }

  ghost predicate ThreadsLabelled(threads: map<nat, Thread>) {
    forall th <- threads :: ThreadLabelled(threads[th])
  }

  ghost predicate EffectLabelled(e: Effect) {
    match e
    case Insert(_, row) => row.status == Online
    case Regrade(_, status) => KnownStatus(status)
    case Rejudge(_, e, compliant) => Complete(e) && (compliant <==> MeetsEach(e.seen, e.report))
    case Demote(_, status) => KnownStatus(status) && status != Online
    case _ => true
  }

  lemma LabelledEffect(b: Views, e: Effect, now: Time)
    requires Labelled(b) && EffectLabelled(e)
    ensures Labelled(ApplyEffect(b, e, now))
  {
  }

  // ---- all runs ----

  ghost predicate Sound(limits: Limits, s: State) {
    && Timely(Board(s), s.clock)
    && ThreadsTimely(s.threads, s.clock)
    && ScanSound(limits, Board(s), s.scan, s.clock)
    && PassSound(limits, Board(s), s.history, s.clock)
    && Labelled(Board(s))
    && ThreadsLabelled(s.threads)
  }

  lemma EffectsAreSound(limits: Limits, s: State, step: Step)
    requires Sound(limits, s)
    ensures var e := StepEffect(limits, s, step); EffectTimely(e, s.clock) && EffectDemotes(e) && EffectLabelled(e)
  {
  }

  lemma NextThread(s: State, t: Thread, newId: NodeId, key: Hash)
    requires ThreadTimely(t, s.clock) && ThreadLabelled(t)
    ensures match ThreadNext(s, t, newId, key)
      case None => true
      case Some(next) => ThreadTimely(next, s.clock) && ThreadLabelled(next)
  {
    if t.ReportLooking? && |t.seen| < |Items(t.report)| {
      var longer := t.seen + [s.policy];
      assert forall i :: 0 <= i < |t.seen| ==> longer[i] == t.seen[i];
      assert longer[|t.seen|] == s.policy;
    }
  }

  lemma ThreadsStep(limits: Limits, s: State, step: Step)
    requires Sound(limits, s)
    ensures var after := Apply(limits, s, step); ThreadsTimely(after.threads, after.clock) && ThreadsLabelled(after.threads)
  {
    match step
    case Advance(th, newId, key) => if th in s.threads { NextThread(s, s.threads[th], newId, key); }
    case _ =>
  }

  /** Only the end of a pass moves the last pass. */
  lemma LastPassStep(limits: Limits, s: State, step: Step)
    ensures var after := Apply(limits, s, step);
      LastPass(after.history) ==
        if step.ScanStep? && s.scan.Writing? && s.scan.todo == [] then Some(s.scan.at) else LastPass(s.history)
  {
  }

  lemma ScansStep(limits: Limits, s: State, step: Step)
    requires Sound(limits, s)
    ensures var after := Apply(limits, s, step); ScanSound(limits, Board(after), after.scan, after.clock)
  {
    var e := StepEffect(limits, s, step);
    StepBoard(limits, s, step);
    EffectsAreSound(limits, s, step);
    ScanEffect(limits, Board(s), s.scan, e, s.clock);
    match step
    case ScanList(order) => if s.scan.Waiting? && IsListing(s.db.nodes, order) { ScanList(limits, s, order); }
    case ScanStep => if s.scan.Writing? && s.scan.todo != [] { ScanWriteSound(limits, Board(s), s.scan, s.clock, e); }
    case _ =>
  }

  lemma PassesStep(limits: Limits, s: State, step: Step)
    requires Sound(limits, s)
    ensures var after := Apply(limits, s, step); PassSound(limits, Board(after), after.history, after.clock)
  {
    var e := StepEffect(limits, s, step);
    StepBoard(limits, s, step);
    LastPassStep(limits, s, step);
    EffectsAreSound(limits, s, step);
    if step.ScanStep? && s.scan.Writing? && s.scan.todo == [] {
      assert FreshSince(limits, Board(s), s.scan.at);
    } else if LastPass(s.history).Some? {
      FreshEffect(limits, Board(s), e, s.clock, LastPass(s.history).value);
    }
  }

  lemma SoundStep(limits: Limits, s: State, step: Step)
    requires Sound(limits, s)
    ensures Sound(limits, Apply(limits, s, step))
  {
    var e := StepEffect(limits, s, step);
    StepBoard(limits, s, step);
    EffectsAreSound(limits, s, step);
    TimelyEffect(Board(s), e, s.clock);
    LabelledEffect(Board(s), e, s.clock);
    ThreadsStep(limits, s, step);
    ScansStep(limits, s, step);
    PassesStep(limits, s, step);
  }

  lemma {:induction false} SoundAlways(limits: Limits, policy: Policy, clock: Time, steps: seq<Step>)
    ensures Sound(limits, After(limits, Start(policy, clock), steps))
  {
    if steps == [] {
    } else {
      var init := steps[..|steps| - 1];
      SoundAlways(limits, policy, clock, init);
      SoundStep(limits, After(limits, Start(policy, clock), init), steps[|steps| - 1]);
    }
  }

  // ---- main results ----

  /** Whatever policy the routing table is computed under, a routable node is online and was last heard of
      at most `degradedAfter` before the last completed monitor pass listed the nodes. */
  lemma {:induction false} RoutableIsFresh(limits: Limits, policy0: Policy, clock0: Time, steps: seq<Step>,
                                           id: NodeId, policy: Policy)
    requires var s := After(limits, Start(policy0, clock0), steps);
      id in s.db.nodes && Routable(policy, s.db.nodes[id])
    ensures var s := After(limits, Start(policy0, clock0), steps);
      && s.db.nodes[id].status == Online
      && LastContact(s.history, id).Some? && LastContact(s.history, id).value <= s.clock
      && (LastPass(s.history).Some? ==>
            s.clock - LastContact(s.history, id).value <= limits.degradedAfter + (s.clock - LastPass(s.history).value))
  {
    SoundAlways(limits, policy0, clock0, steps);
    assert id in Board(After(limits, Start(policy0, clock0), steps));
  }

  /** Under an enforcing policy, a routable node has been evaluated since it enrolled, and in its last
      evaluation every item passed under the policy in force when it was looked at. */
  lemma EnforcedRouteHasPassed(limits: Limits, policy0: Policy, clock0: Time, steps: seq<Step>, id: NodeId,
                               policy: Policy)
    requires var s := After(limits, Start(policy0, clock0), steps);
      id in s.db.nodes && policy.mode == Enforce && Routable(policy, s.db.nodes[id])
    ensures match LastVerdict(After(limits, Start(policy0, clock0), steps).history, id)
      case None => false
      case Some(e) => Complete(e) && MeetsEach(e.seen, e.report)
  {
    SoundAlways(limits, policy0, clock0, steps);
    assert id in Board(After(limits, Start(policy0, clock0), steps));
  }

  /** Conversely, an online node whose last evaluation passed is routable under every policy. */
  lemma PassedNodeIsRoutable(limits: Limits, policy0: Policy, clock0: Time, steps: seq<Step>, id: NodeId,
                             policy: Policy)
    requires var s := After(limits, Start(policy0, clock0), steps);
      && id in s.db.nodes && s.db.nodes[id].status == Online
      && match LastVerdict(s.history, id)
         case None => false
         case Some(e) => |e.seen| == |Items(e.report)| && MeetsEach(e.seen, e.report)
    ensures Routable(policy, After(limits, Start(policy0, clock0), steps).db.nodes[id])
  {
    SoundAlways(limits, policy0, clock0, steps);
    assert id in Board(After(limits, Start(policy0, clock0), steps));
  }

  /** Routability told from the history alone, for every policy: the status written last is online and, only if the
      policy enforces, there was an evaluation since the node enrolled and every item cleared the policy read for
      it. Without enforcement failed and unjudged nodes are routed as well. */
  lemma {:induction false} RoutableIff(limits: Limits, policy0: Policy, clock0: Time, steps: seq<Step>, id: NodeId,
                                       policy: Policy)
    requires id in After(limits, Start(policy0, clock0), steps).db.nodes
    ensures var s := After(limits, Start(policy0, clock0), steps);
      Routable(policy, s.db.nodes[id]) <==>
        && LastWriter(s.history, id).Some? && Wrote(LastWriter(s.history, id).value) == Online
        && (policy.mode == Enforce ==>
              match LastVerdict(s.history, id)
              case None => false
              case Some(e) => |e.seen| == |Items(e.report)| && MeetsEach(e.seen, e.report))
  {
    SoundAlways(limits, policy0, clock0, steps);
    assert id in Board(After(limits, Start(policy0, clock0), steps));
  }

  /** A node whose last accepted heartbeat is young enough, truncation included, keeps its status through
      an uninterrupted check. */
  lemma PunctualNodeIsLeftAlone(limits: Limits, policy0: Policy, clock0: Time, steps: seq<Step>, id: NodeId)
    requires var s := After(limits, Start(policy0, clock0), steps);
      && id in s.db.nodes && LastStamp(s.history, id).Some?
      && s.clock - LastStamp(s.history, id).value + SECOND - 1 <= limits.degradedAfter
      && limits.degradedAfter <= limits.offlineAfter
    ensures var s := After(limits, Start(policy0, clock0), steps);
      CheckedNodes(limits, s.db.nodes, s.clock)[id] == s.db.nodes[id]
  {
    SoundAlways(limits, policy0, clock0, steps);
    assert id in Board(After(limits, Start(policy0, clock0), steps));
  }

  /** Every node has an accepted heartbeat stamp, the one its table row was truncated from. */
  lemma {:induction false} StampIsStored(limits: Limits, policy0: Policy, clock0: Time, steps: seq<Step>, id: NodeId)
    requires id in After(limits, Start(policy0, clock0), steps).db.nodes
    ensures var s := After(limits, Start(policy0, clock0), steps);
      LastStamp(s.history, id).Some? && s.db.nodes[id].lastHeartbeat == Stored(LastStamp(s.history, id).value)
  {
    SoundAlways(limits, policy0, clock0, steps);
    assert id in Board(After(limits, Start(policy0, clock0), steps));
  }

  lemma WriteKeepsKeys(db: Tables, t: Thread)
    requires UniqueKeys(db.nodes)
    ensures UniqueKeys(ThreadWrite(db, t).nodes)
  {
    match t
    case EnrollAdmitted(_, node, row, _) =>
    case ReportLooking(node, _, _, _, compliant) => ComplianceKeepsKeys(db, node, compliant);
    case _ =>
  }

  lemma ComplianceKeepsKeys(db: Tables, node: NodeId, compliant: bool)
    requires UniqueKeys(db.nodes)
    ensures UniqueKeys(SetCompliance(db, node, if compliant then Compliant else NonCompliant).nodes)
  {
  }

  lemma KeysStep(limits: Limits, s: State, step: Step)
    requires UniqueKeys(s.db.nodes)
    ensures UniqueKeys(Apply(limits, s, step).db.nodes)
  {
    match step
    case Advance(th, _, _) => if th in s.threads { WriteKeepsKeys(s.db, s.threads[th]); }
    case _ =>
  }

  /** In every run no two nodes share a key. */
  lemma {:induction false} KeysStayUnique(limits: Limits, policy0: Policy, clock0: Time, steps: seq<Step>)
    ensures UniqueKeys(After(limits, Start(policy0, clock0), steps).db.nodes)
  {
    if steps == [] {
    } else {
      var init := steps[..|steps| - 1];
      KeysStayUnique(limits, policy0, clock0, init);
      KeysStep(limits, After(limits, Start(policy0, clock0), init), steps[|steps| - 1]);
    }
  }

  lemma HashesStep(limits: Limits, s: State, step: Step)
    requires UniqueHashes(s.db.tokens)
    ensures UniqueHashes(Apply(limits, s, step).db.tokens)
  {
  }

  /** In every run no two tokens share a hash, so the token looked up is the only one with the secret's hash. */
  lemma {:induction false} HashesStayUnique(limits: Limits, policy0: Policy, clock0: Time, steps: seq<Step>)
    ensures UniqueHashes(After(limits, Start(policy0, clock0), steps).db.tokens)
  {
    if steps == [] {
    } else {
      var init := steps[..|steps| - 1];
      HashesStayUnique(limits, policy0, clock0, init);
      HashesStep(limits, After(limits, Start(policy0, clock0), init), steps[|steps| - 1]);
    }
  }

  predicate AllKnown(rows: map<NodeId, Node>) {
    forall id <- rows :: KnownStatus(rows[id].status)
  }

  /** Every writer stores one of the three known statuses. */
  lemma StatusesStayKnown(limits: Limits, policy0: Policy, clock0: Time, steps: seq<Step>)
    ensures AllKnown(After(limits, Start(policy0, clock0), steps).db.nodes)
  {
    SoundAlways(limits, policy0, clock0, steps);
    var s := After(limits, Start(policy0, clock0), steps);
    forall id | id in s.db.nodes
      ensures KnownStatus(s.db.nodes[id].status)
    {
      assert id in Board(s);
    }
  }
}
