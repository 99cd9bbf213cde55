/** What a node's status says about its reports: less than it seems, since any heartbeat turns a node online. */
module FleetStatus {
  import opened FleetTypes
  import opened FleetStore
  import opened StaleNodes
  import opened FleetRuns
  import opened FleetSafety
  import opened FleetAtomicity
  import opened FleetExamples

  /** In every run a node's status is what its last status-writing event left. */
  lemma {:induction false} StatusIsLastWritten(limits: Limits, policy0: Policy, clock0: Time, steps: seq<Step>,
                                               id: NodeId)
    requires id in After(limits, Start(policy0, clock0), steps).db.nodes
    ensures var s := After(limits, Start(policy0, clock0), steps);
      && LastWriter(s.history, id).Some? && s.db.nodes[id].status == Wrote(LastWriter(s.history, id).value)
      && (LastWriter(s.history, id).value.ByMonitor? ==> s.db.nodes[id].status != Online)
  {
    SoundAlways(limits, policy0, clock0, steps);
    assert id in Board(After(limits, Start(policy0, clock0), steps));
  }

  /** A grade that was written last is the last grade; right after enrolling there is none. */
  lemma {:induction false} GradeWrittenLast(h: History, id: NodeId)
    ensures match LastWriter(h, id)
      case Some(ByReport(status)) => LastGrade(h, id) == Some(status)
      case Some(ByEnrollment) => LastGrade(h, id) == None
      case _ => true
  {
    match h
    case Begin =>
    case Then(before, _) => GradeWrittenLast(before, id);
  }

  /** In every run, a node whose last report had failures is online exactly when a heartbeat was accepted
      after that report's grade and the monitor has not demoted the node since. */
  lemma {:induction false} OnlineDespiteFailures(limits: Limits, policy0: Policy, clock0: Time, steps: seq<Step>,
                                                 id: NodeId)
    requires var s := After(limits, Start(policy0, clock0), steps);
      id in s.db.nodes && LastGrade(s.history, id) == Some(Degraded)
    ensures var s := After(limits, Start(policy0, clock0), steps);
      s.db.nodes[id].status == Online <==> LastWriter(s.history, id) == Some(ByHeartbeat)
  {
    StatusIsLastWritten(limits, policy0, clock0, steps, id);
    GradeWrittenLast(After(limits, Start(policy0, clock0), steps).history, id);
  }

  /** A report that says it failed once. */
  const FAILED := Report([], 0, 1, 0)

  /** Enroll, report a failure, send a heartbeat: the node is online. */
  const HIDDEN := JOIN + (Reports(FAILED) + Beats(1))

  lemma HeartbeatHidesFailures(limits: Limits, policy: Policy, clock: Time)
    ensures var s := After(limits, Start(policy, clock), HIDDEN);
      0 in s.db.nodes && s.db.nodes[0].status == Online && LastGrade(s.history, 0) == Some(Degraded)
  {
    var joined := After(limits, Start(policy, clock), JOIN);
    Joins(limits, policy, clock);
    AfterSplit(limits, Start(policy, clock), JOIN, Reports(FAILED) + Beats(1));
    AfterSplit(limits, joined, Reports(FAILED), Beats(1));
    ReportsRun(limits, joined, FAILED);
    BeatsRun(limits, After(limits, joined, Reports(FAILED)), 1);
  }
}
