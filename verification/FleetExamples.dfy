/** Runs from the start that other modules exhibit, phase by phase. */
module FleetExamples {
  import opened FleetTypes
  import opened FleetStore
  import opened CompliancePolicy
  import opened StaleNodes
  import opened Enrollments
  import opened FleetRuns
  import opened FleetAtomicity

  const TOKEN := CreateToken(0, 0, Server, "", 1, 3600)
  const REQ := EnrollRequest("n", "")
  const JOIN := [TOKEN, StartEnroll(0, 0, REQ)] + [Adv(0, 0, 0), Adv(0, 0, 0), Adv(0, 0, 0), Adv(0, 0, 0)]

  /** One server, node 0, has just enrolled. */
  predicate Joined(s: State, policy: Policy, clock: Time) {
    && s.policy == policy && s.clock == clock && s.threads == map[] && s.scan == Waiting
    && s.db.nodes.Keys == {0} && s.db.nodes[0].status == Online && s.db.nodes[0].role == Server
    && s.db.nodes[0].lastHeartbeat == Stored(clock) && LastStamp(s.history, 0) == Some(clock)
  }

  lemma TokenRead(limits: Limits, policy: Policy, clock: Time)
    ensures var s := After(limits, Start(policy, clock), [TOKEN, StartEnroll(0, 0, REQ)]);
      && s.threads.Keys == {0} && s.threads[0].EnrollRead? && s.threads[0].token == 0 && s.threads[0].req == REQ
      && s.threads[0].row.role == Server && Admits(s.threads[0].row, clock)
      && s.db.nodes == map[] && s.drawn == {} && s.policy == policy && s.clock == clock && s.scan == Waiting
  {
    AfterTwo(limits, Start(policy, clock), TOKEN, StartEnroll(0, 0, REQ));
  }

  lemma Joins(limits: Limits, policy: Policy, clock: Time)
    ensures Joined(After(limits, Start(policy, clock), JOIN), policy, clock)
  {
    TokenRead(limits, policy, clock);
    var s := After(limits, Start(policy, clock), [TOKEN, StartEnroll(0, 0, REQ)]);
    AfterSplit(limits, Start(policy, clock), [TOKEN, StartEnroll(0, 0, REQ)], [Adv(0, 0, 0), Adv(0, 0, 0), Adv(0, 0, 0), Adv(0, 0, 0)]);
    EnrollThrough(limits, s, 0, 0, 0);
    assert s.threads - {0} == map[];
  }

  /** A heartbeat that nothing interrupts. */
  function Beats(th: nat): seq<Step> {
    [StartHeartbeat(th, 0), Adv(th, 0, 0)]
  }

  lemma BeatsRun(limits: Limits, s: State, th: nat)
    requires 0 in s.db.nodes && th !in s.threads
    ensures After(limits, s, Beats(th))
         == s.(db := SetHeartbeat(s.db, 0, s.clock), history := Then(s.history, Beat(0, s.clock, s.clock)))
  {
    AfterTwo(limits, s, StartHeartbeat(th, 0), Adv(th, 0, 0));
    assert s.threads[th := Beating(0, s.clock)] - {th} == s.threads;
  }

  /** A report up to its grade, its evaluation still to come. */
  function Reports(report: Report): seq<Step> {
    [StartReport(0, 0, report)] + (Advs(0, 3) + Advs(0, 2))
  }

  lemma ReportsRun(limits: Limits, s: State, report: Report)
    requires 0 in s.db.nodes && s.threads == map[]
    ensures var t := After(limits, s, Reports(report));
      && t.threads == map[0 := ReportGraded(0, report)] && t.policy == s.policy && t.clock == s.clock && 0 in t.db.nodes
      && t.db.nodes[0].status == Grade(report) && t.db.nodes[0].role == s.db.nodes[0].role
      && LastGrade(t.history, 0) == Some(Grade(report)) && LastWriter(t.history, 0) == Some(ByReport(Grade(report)))
  {
    var s0 := s.(threads := s.threads[0 := ReportReceived(0, report)]);
    AfterFirst(limits, s, StartReport(0, 0, report), Advs(0, 3) + Advs(0, 2));
    AfterSplit(limits, s0, Advs(0, 3), Advs(0, 2));
    AdvancedIsRun(limits, s0, 0, 3);
    AdvancedIsRun(limits, Advanced(limits, s0, 0, 3), 0, 2);
    ReportToGrade(limits, s0, 0, 0, report);
    assert s0.threads[0 := ReportGraded(0, report)] == map[0 := ReportGraded(0, report)];
  }
}
