/** Requests that nothing interrupts: running a thread from start to end does to the tables exactly what the
    handler method does, so the methods' states are states of some run. */
module FleetAtomicity {
  import opened FleetTypes
  import opened FleetStore
  import opened CompliancePolicy
  import opened StaleNodes
  import opened Enrollments
  import opened FleetRuns

  function Adv(th: nat, id: NodeId, key: Hash): Step {
    Advance(th, id, key)
  }

  /** An enrollment whose token row has been read: the check, the clock reading, and the two statements. */
  lemma EnrollThrough(limits: Limits, s: State, th: nat, id: NodeId, key: Hash)
    requires th in s.threads && s.threads[th].EnrollRead? && Admits(s.threads[th].row, s.clock)
    requires CanInsertNode(s.db, id, NewNode(s.threads[th].row, s.threads[th].req, key, s.clock)) && id !in s.drawn
    ensures var EnrollRead(token, row, req) := s.threads[th];
      After(limits, s, [Adv(th, id, key), Adv(th, id, key), Adv(th, id, key), Adv(th, id, key)])
        == s.(db := CountUse(InsertNode(s.db, id, NewNode(row, req, key, s.clock)), token),
              threads := s.threads - {th}, drawn := s.drawn + {id},
              history := Then(Then(s.history, Enrolled(id, token, s.clock, s.clock, Admission(req, s.clock))), UseCounted(token)))
  {
    var EnrollRead(token, row, req) := s.threads[th];
    var a := Adv(th, id, key);
    AfterFour(limits, s, a, a, a, a);
    var row1 := NewNode(row, req, key, s.clock);
    var s1 := Apply(limits, s, a);
    assert s1 == s.(threads := s.threads[th := EnrollChecked(token, row, Admission(req, s.clock))]);
    var s2 := Apply(limits, s1, a);
    assert s2 == s.(threads := s.threads[th := EnrollAdmitted(token, id, row1, Admission(req, s.clock))], drawn := s.drawn + {id});
    var s3 := Apply(limits, s2, a);
    assert s3.threads == s.threads[th := EnrollCreated(token)];
    assert s3.threads - {th} == s.threads - {th};
  }

  /** The table effect of a whole HandleReport whose evaluation came to the given verdict. */
  function ReportEffect(db: Tables, node: NodeId, report: Report, now: Time, verdict: Option<bool>): Tables {
    var counted := SetCounts(InsertReport(db, node, report), node, report.passed, report.failed, report.warned);
    var graded := SetStatus(SetHeartbeat(counted, node, now), node, Grade(report));
    match verdict
    case None => graded
    case Some(compliant) => SetCompliance(graded, node, if compliant then Compliant else NonCompliant)
  }

  /** A report leaves its node stamped, counted and graded by its failures, and judged unless disabled. */
  lemma ReportEffectRow(db: Tables, node: NodeId, report: Report, now: Time, verdict: Option<bool>)
    requires node in db.nodes
    ensures var after := ReportEffect(db, node, report, now, verdict); var row := db.nodes[node];
      && after.tokens == db.tokens && after.requests == db.requests
      && after.reports == db.reports[node := ReportsOf(db, node) + [report]]
      && after.nodes == db.nodes[node := row.(
           passed := report.passed, failed := report.failed, warned := report.warned, lastHeartbeat := Stored(now),
           status := if report.failed > 0 then Degraded else Online,
           compliance := match verdict
                         case None => row.compliance
                         case Some(compliant) => if compliant then Compliant else NonCompliant)]
  {
  }

  function Advs(th: nat, n: nat): seq<Step> {
    if n == 0 then [] else Advs(th, n - 1) + [Adv(th, 0, 0)]
  }

  /** The state after advancing one thread so often. */
  ghost function Advanced(limits: Limits, s: State, th: nat, n: nat): State {
    if n == 0 then s else Apply(limits, Advanced(limits, s, th, n - 1), Adv(th, 0, 0))
  }

  lemma {:induction false} AdvancedIsRun(limits: Limits, s: State, th: nat, n: nat)
    ensures After(limits, s, Advs(th, n)) == Advanced(limits, s, th, n)
  {
    if n > 0 {
      AdvancedIsRun(limits, s, th, n - 1);
      AfterLast(limits, s, Advs(th, n - 1), Adv(th, 0, 0));
    }
  }

  lemma ReportSaves(limits: Limits, s: State, th: nat, node: NodeId, report: Report)
    requires th in s.threads
    ensures s.threads[th] == ReportReceived(node, report) ==>
      Apply(limits, s, Adv(th, 0, 0))
        == s.(db := InsertReport(s.db, node, report), threads := s.threads[th := ReportSaved(node, report)])
    ensures s.threads[th] == ReportSaved(node, report) ==>
      Apply(limits, s, Adv(th, 0, 0))
        == s.(db := SetCounts(s.db, node, report.passed, report.failed, report.warned),
              threads := s.threads[th := ReportCounted(node, report)])
    ensures s.threads[th] == ReportCounted(node, report) ==>
      Apply(limits, s, Adv(th, 0, 0)) == s.(threads := s.threads[th := ReportStamped(node, report, s.clock)])
  {
  }

  lemma ReportStamps(limits: Limits, s: State, th: nat, node: NodeId, report: Report)
    requires th in s.threads && s.threads[th] == ReportReceived(node, report)
    ensures Advanced(limits, s, th, 3)
         == s.(db := SetCounts(InsertReport(s.db, node, report), node, report.passed, report.failed, report.warned),
               threads := s.threads[th := ReportStamped(node, report, s.clock)])
  {
    var s0 := Advanced(limits, s, th, 0);
    ReportSaves(limits, s0, th, node, report);
    var s1 := Advanced(limits, s, th, 1);
    assert s1 == s.(db := InsertReport(s.db, node, report), threads := s.threads[th := ReportSaved(node, report)]);
    ReportSaves(limits, s1, th, node, report);
    var s2 := Advanced(limits, s, th, 2);
    assert s2.threads == s.threads[th := ReportCounted(node, report)];
    ReportSaves(limits, s2, th, node, report);
  }

  lemma Stamps(limits: Limits, s: State, th: nat, node: NodeId, report: Report, stamp: Time)
    requires th in s.threads && s.threads[th] == ReportStamped(node, report, stamp) && node in s.db.nodes
    ensures Apply(limits, s, Adv(th, 0, 0))
         == s.(db := SetHeartbeat(s.db, node, stamp), history := Then(s.history, Beat(node, stamp, s.clock)),
               threads := s.threads[th := ReportBeaten(node, report)])
  {
  }

  lemma Grades(limits: Limits, s: State, th: nat, node: NodeId, report: Report)
    requires th in s.threads && s.threads[th] == ReportBeaten(node, report) && node in s.db.nodes
    ensures Apply(limits, s, Adv(th, 0, 0))
         == s.(db := SetStatus(s.db, node, Grade(report)), history := Then(s.history, Graded(node, Grade(report), s.clock)),
               threads := s.threads[th := ReportGraded(node, report)])
  {
  }

  lemma ReportGrades(limits: Limits, s: State, th: nat, node: NodeId, report: Report, stamp: Time)
    requires th in s.threads && s.threads[th] == ReportStamped(node, report, stamp) && node in s.db.nodes
    ensures Advanced(limits, s, th, 2)
         == s.(db := SetStatus(SetHeartbeat(s.db, node, stamp), node, Grade(report)),
               history := Then(Then(s.history, Beat(node, stamp, s.clock)), Graded(node, Grade(report), s.clock)),
               threads := s.threads[th := ReportGraded(node, report)])
  {
    Stamps(limits, s, th, node, report, stamp);
    var s1 := s.(db := SetHeartbeat(s.db, node, stamp), history := Then(s.history, Beat(node, stamp, s.clock)),
                 threads := s.threads[th := ReportBeaten(node, report)]);
    assert Advanced(limits, s, th, 1) == Apply(limits, Advanced(limits, s, th, 0), Adv(th, 0, 0)) == s1;
    Grades(limits, s1, th, node, report);
    assert s1.threads[th := ReportGraded(node, report)] == s.threads[th := ReportGraded(node, report)];
  }

  /** The same policy at every read. */
  function Steady(p: Policy, n: nat): seq<Policy> {
    if n == 0 then [] else Steady(p, n - 1) + [p]
  }

  lemma {:induction false} SteadyAt(p: Policy, n: nat)
    ensures |Steady(p, n)| == n && forall i :: 0 <= i < n ==> Steady(p, n)[i] == p
  {
    if n > 0 {
      SteadyAt(p, n - 1);
    }
  }

  lemma LookStarts(limits: Limits, s: State, th: nat, node: NodeId, report: Report)
    requires th in s.threads && s.threads[th] == ReportGraded(node, report)
    ensures Apply(limits, s, Adv(th, 0, 0))
         == if s.policy.mode == Disabled then s.(threads := s.threads - {th})
            else s.(threads := s.threads[th := ReportLooking(node, report, s.policy, [], true)])
  {
  }

  lemma LookGoesOn(limits: Limits, s: State, th: nat, t: Thread)
    requires th in s.threads && s.threads[th] == t && t.ReportLooking? && |t.seen| < |Items(t.report)|
    ensures Apply(limits, s, Adv(th, 0, 0))
         == s.(threads := s.threads[th := t.(seen := t.seen + [s.policy],
                                             compliant := t.compliant && Clears(s.policy, Items(t.report)[|t.seen|]))])
  {
  }

  lemma LookEnds(limits: Limits, s: State, th: nat, t: Thread)
    requires th in s.threads && s.threads[th] == t && t.ReportLooking? && |t.seen| == |Items(t.report)| && t.node in s.db.nodes
    ensures Apply(limits, s, Adv(th, 0, 0))
         == s.(db := SetCompliance(s.db, t.node, if t.compliant then Compliant else NonCompliant),
               threads := s.threads - {th},
               history := Then(s.history, Judged(t.node, t.report, t.start, t.seen)))
  {
  }

  predicate AllClear(p: Policy, items: seq<Item>) {
    forall i :: 0 <= i < |items| ==> Clears(p, items[i])
  }

  function LookingAt(node: NodeId, report: Report, p: Policy, k: nat): Thread
    requires k <= |Items(report)|
  {
    ReportLooking(node, report, p, Steady(p, k), AllClear(p, Items(report)[..k]))
  }

  /** An evaluation that nothing interrupts reads one policy throughout. */
  lemma {:induction false} ReportLooks(limits: Limits, s: State, th: nat, node: NodeId, report: Report, k: nat)
    requires th in s.threads && s.threads[th] == ReportGraded(node, report) && s.policy.mode != Disabled
    requires k <= |Items(report)|
    ensures Advanced(limits, s, th, k + 1) == s.(threads := s.threads[th := LookingAt(node, report, s.policy, k)])
  {
    if k == 0 {
      LookStarts(limits, s, th, node, report);
      assert Advanced(limits, s, th, 0) == s;
    } else {
      ReportLooks(limits, s, th, node, report, k - 1);
      LookMore(limits, s, th, node, report, k - 1);
    }
  }

  lemma LookMore(limits: Limits, s: State, th: nat, node: NodeId, report: Report, k: nat)
    requires k < |Items(report)|
    ensures var s1 := s.(threads := s.threads[th := LookingAt(node, report, s.policy, k)]);
      Apply(limits, s1, Adv(th, 0, 0)) == s.(threads := s.threads[th := LookingAt(node, report, s.policy, k + 1)])
  {
    var t := LookingAt(node, report, s.policy, k);
    SteadyAt(s.policy, k);
    var items := Items(report);
    assert items[..k + 1] == items[..k] + [items[k]];
    LookGoesOn(limits, s.(threads := s.threads[th := t]), th, t);
  }

  lemma ReportSettles(limits: Limits, s: State, th: nat, node: NodeId, report: Report)
    requires th in s.threads && s.threads[th] == ReportGraded(node, report) && node in s.db.nodes
    ensures var after := Advanced(limits, s, th, |Items(report)| + 2);
      && after.threads == s.threads - {th}
      && after.db == match Verdict(s.policy, Reads(s.policy, report), report)
                     case None => s.db
                     case Some(compliant) => SetCompliance(s.db, node, if compliant then Compliant else NonCompliant)
  {
    if s.policy.mode == Disabled {
      DisabledSettles(limits, s, th, node, report, |Items(report)| + 1);
    } else {
      LookSettles(limits, s, th, node, report);
    }
  }

  lemma LookSettles(limits: Limits, s: State, th: nat, node: NodeId, report: Report)
    requires th in s.threads && s.threads[th] == ReportGraded(node, report) && node in s.db.nodes && s.policy.mode != Disabled
    ensures var after := Advanced(limits, s, th, |Items(report)| + 2);
      && after.threads == s.threads - {th}
      && after.db == SetCompliance(s.db, node, if MeetsEach(Reads(s.policy, report), report) then Compliant else NonCompliant)
  {
    var n := |Items(report)|;
    var t := LookingAt(node, report, s.policy, n);
    var looked := s.(threads := s.threads[th := t]);
    ReportLooks(limits, s, th, node, report, n);
    SteadyAt(s.policy, n);
    LookEnds(limits, looked, th, t);
    assert looked.threads - {th} == s.threads - {th};
    assert Items(report)[..n] == Items(report);
    assert MeetsEach(Steady(s.policy, n), report) <==> AllClear(s.policy, Items(report));
  }

  lemma {:induction false} DisabledSettles(limits: Limits, s: State, th: nat, node: NodeId, report: Report, n: nat)
    requires th in s.threads && s.threads[th] == ReportGraded(node, report) && s.policy.mode == Disabled
    ensures Advanced(limits, s, th, n + 1) == s.(threads := s.threads - {th})
  {
    if n == 0 {
      LookStarts(limits, s, th, node, report);
      assert Advanced(limits, s, th, 0) == s;
    } else {
      DisabledSettles(limits, s, th, node, report, n - 1);
      GoneStays(limits, s.(threads := s.threads - {th}), th);
    }
  }

  /** Advancing a thread that has returned does nothing. */
  lemma GoneStays(limits: Limits, s: State, th: nat)
    requires th !in s.threads
    ensures Apply(limits, s, Adv(th, 0, 0)) == s
  {
  }

  /** What all reads of one evaluation return when nothing interrupts it. */
  function Reads(p: Policy, report: Report): (r: seq<Policy>)
    ensures |r| == |Items(report)|
  {
    SteadyAt(p, |Items(report)|);
    Steady(p, |Items(report)|)
  }

  /** The steps of a report that nothing interrupts. */
  function Reporting(th: nat, node: NodeId, report: Report): seq<Step> {
    [StartReport(th, node, report)] + (Advs(th, 3) + (Advs(th, 2) + Advs(th, |Items(report)| + 2)))
  }

  /** A report from its start to its grade. */
  lemma ReportToGrade(limits: Limits, s: State, th: nat, node: NodeId, report: Report)
    requires th in s.threads && s.threads[th] == ReportReceived(node, report) && node in s.db.nodes
    ensures Advanced(limits, Advanced(limits, s, th, 3), th, 2)
         == s.(db := ReportEffect(s.db, node, report, s.clock, None),
               history := Then(Then(s.history, Beat(node, s.clock, s.clock)), Graded(node, Grade(report), s.clock)),
               threads := s.threads[th := ReportGraded(node, report)])
  {
    ReportStamps(limits, s, th, node, report);
    var stamped := Advanced(limits, s, th, 3);
    ReportGrades(limits, stamped, th, node, report, s.clock);
    assert stamped.threads[th := ReportGraded(node, report)] == s.threads[th := ReportGraded(node, report)];
  }

  lemma UninterruptedReport(limits: Limits, s: State, th: nat, node: NodeId, report: Report)
    requires th !in s.threads && node in s.db.nodes
    ensures var after := After(limits, s, Reporting(th, node, report));
      && after.db == ReportEffect(s.db, node, report, s.clock, Verdict(s.policy, Reads(s.policy, report), report))
      && after.threads == s.threads
  {
    var s0 := s.(threads := s.threads[th := ReportReceived(node, report)]);
    ReportUnfolds(limits, s, th, node, report);
    ReportToGrade(limits, s0, th, node, report);
    var graded := Advanced(limits, Advanced(limits, s0, th, 3), th, 2);
    ReportSettles(limits, graded, th, node, report);
    assert graded.threads - {th} == s.threads;
    EffectOfVerdict(s.db, node, report, s.clock, Verdict(s.policy, Reads(s.policy, report), report));
  }

  lemma EffectOfVerdict(db: Tables, node: NodeId, report: Report, now: Time, verdict: Option<bool>)
    ensures ReportEffect(db, node, report, now, verdict)
         == match verdict
            case None => ReportEffect(db, node, report, now, None)
            case Some(compliant) =>
              SetCompliance(ReportEffect(db, node, report, now, None), node, if compliant then Compliant else NonCompliant)
  {
  }

  lemma ReportUnfolds(limits: Limits, s: State, th: nat, node: NodeId, report: Report)
    requires th !in s.threads && node in s.db.nodes
    ensures var s0 := s.(threads := s.threads[th := ReportReceived(node, report)]);
      After(limits, s, Reporting(th, node, report))
        == Advanced(limits, Advanced(limits, Advanced(limits, s0, th, 3), th, 2), th, |Items(report)| + 2)
  {
    var looks := Advs(th, |Items(report)| + 2);
    var s0 := s.(threads := s.threads[th := ReportReceived(node, report)]);
    AfterFirst(limits, s, StartReport(th, node, report), Advs(th, 3) + (Advs(th, 2) + looks));
    AfterSplit(limits, s0, Advs(th, 3), Advs(th, 2) + looks);
    AfterSplit(limits, After(limits, s0, Advs(th, 3)), Advs(th, 2), looks);
    AdvancedIsRun(limits, s0, th, 3);
    AdvancedIsRun(limits, Advanced(limits, s0, th, 3), th, 2);
    AdvancedIsRun(limits, Advanced(limits, Advanced(limits, s0, th, 3), th, 2), th, |Items(report)| + 2);
  }

  /** The monitor's steps for one pass. */
  function Pass(order: seq<NodeId>): seq<Step> {
    [ScanList(order), ScanStep] + Writes(|order|) + [ScanStep]
  }

  function Writes(n: nat): seq<Step> {
    if n == 0 then [] else [ScanStep] + Writes(n - 1)
  }

  /** What the writes of a pass make of the tables. */
  function WriteAll(limits: Limits, db: Tables, todo: seq<(NodeId, Node)>, now: Time): Tables
    decreases |todo|
  {
    if todo == [] then db else WriteAll(limits, ScanWrite(limits, db, todo[0].0, todo[0].1, now), todo[1..], now)
  }

  lemma {:induction false} UninterruptedWrites(limits: Limits, s: State)
    requires s.scan.Writing?
    ensures var after := After(limits, s, Writes(|s.scan.todo|));
      after == s.(db := WriteAll(limits, s.db, s.scan.todo, s.scan.now), scan := s.scan.(todo := []), history := after.history)
    decreases |s.scan.todo|
  {
    if s.scan.todo == [] {
    } else {
      AfterFirst(limits, s, ScanStep, Writes(|s.scan.todo| - 1));
      UninterruptedWrites(limits, Apply(limits, s, ScanStep));
    }
  }

  /** Writing listed rows that nothing has touched since checks exactly those rows. */
  lemma {:induction false} WritesCheck(limits: Limits, db: Tables, todo: seq<(NodeId, Node)>, now: Time)
    requires forall i, j :: 0 <= i < j < |todo| ==> todo[i].0 != todo[j].0
    requires forall i :: 0 <= i < |todo| ==> todo[i].0 in db.nodes && db.nodes[todo[i].0] == todo[i].1
    ensures var after := WriteAll(limits, db, todo, now);
      && after == db.(nodes := after.nodes) && after.nodes.Keys == db.nodes.Keys
      && (forall i :: 0 <= i < |todo| ==> after.nodes[todo[i].0] == Checked(limits, todo[i].1, now))
      && (forall id <- db.nodes :: (forall i :: 0 <= i < |todo| ==> todo[i].0 != id) ==> after.nodes[id] == db.nodes[id])
    decreases |todo|
  {
    if todo == [] {
    } else {
      var next := ScanWrite(limits, db, todo[0].0, todo[0].1, now);
      var rest := todo[1..];
      assert next.nodes == db.nodes[todo[0].0 := Checked(limits, todo[0].1, now)];
      assert forall i :: 0 <= i < |rest| ==> rest[i] == todo[i + 1];
      WritesCheck(limits, next, rest, now);
      var after := WriteAll(limits, db, todo, now);
      forall i | 0 <= i < |todo|
        ensures after.nodes[todo[i].0] == Checked(limits, todo[i].1, now)
      {
        if i > 0 {
          assert rest[i - 1] == todo[i];
        }
      }
    }
  }

  lemma UninterruptedScan(limits: Limits, s: State)
    requires s.scan.Writing?
    ensures var after := After(limits, s, Writes(|s.scan.todo|) + [ScanStep]);
      && after == s.(db := WriteAll(limits, s.db, s.scan.todo, s.scan.now), scan := Waiting, history := after.history)
      && LastPass(after.history) == Some(s.scan.at)
  {
    var writes := Writes(|s.scan.todo|);
    AfterSplit(limits, s, writes, [ScanStep]);
    UninterruptedWrites(limits, s);
    AfterOne(limits, After(limits, s, writes), ScanStep);
  }

  lemma PassUnfolds(limits: Limits, s: State, order: seq<NodeId>)
    ensures After(limits, s, Pass(order))
         == After(limits, Apply(limits, Apply(limits, s, ScanList(order)), ScanStep), Writes(|order|) + [ScanStep])
  {
    var listed := Apply(limits, s, ScanList(order));
    assert Pass(order) == [ScanList(order)] + ([ScanStep] + (Writes(|order|) + [ScanStep]));
    AfterFirst(limits, s, ScanList(order), [ScanStep] + (Writes(|order|) + [ScanStep]));
    AfterFirst(limits, listed, ScanStep, Writes(|order|) + [ScanStep]);
  }

  /** A pass nothing interrupts is the monitor's Check. */
  lemma UninterruptedPass(limits: Limits, s: State, order: seq<NodeId>)
    requires s.scan.Waiting? && IsListing(s.db.nodes, order)
    ensures var after := After(limits, s, Pass(order));
      && after == s.(db := s.db.(nodes := CheckedNodes(limits, s.db.nodes, s.clock)), history := after.history)
      && LastPass(after.history) == Some(s.clock)
  {
    var listed := Apply(limits, s, ScanList(order));
    var writing := Apply(limits, listed, ScanStep);
    PassUnfolds(limits, s, order);
    UninterruptedScan(limits, writing);
    PassChecks(limits, s, order);
  }

  lemma PassChecks(limits: Limits, s: State, order: seq<NodeId>)
    requires IsListing(s.db.nodes, order)
    ensures WriteAll(limits, s.db, Listing(s.db.nodes, order), s.clock) == s.db.(nodes := CheckedNodes(limits, s.db.nodes, s.clock))
  {
    var todo := Listing(s.db.nodes, order);
    WritesCheck(limits, s.db, todo, s.clock);
    var after := WriteAll(limits, s.db, todo, s.clock);
    forall id | id in s.db.nodes
      ensures after.nodes[id] == Checked(limits, s.db.nodes[id], s.clock)
    {
      var i :| 0 <= i < |order| && order[i] == id;
      assert todo[i].0 == id;
    }
  }
}
