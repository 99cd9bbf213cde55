/** A policy replaced in the middle of an evaluation: a node passes although its report meets no policy there
    ever was. */
module FleetMixing {
  import opened FleetTypes
  import opened FleetStore
  import opened CompliancePolicy
  import opened StaleNodes
  import opened FleetRuns
  import opened FleetAtomicity
  import opened FleetExamples

  const DISK_ONLY := Policy(Enforce, false, true, false, 0)
  const FIPS_ONLY := Policy(Enforce, true, false, false, 0)

  /** Both checks fail. */
  const NEITHER := Report([Section([Item("", "OS FIPS mode", Fail, ""), Item("", "Disk encryption", Fail, "")])], 0, 2, 0)

  /** The first item is looked at under one policy, the second under the other. */
  function Mixed(q: Policy): seq<Step> {
    [Adv(0, 0, 0), Adv(0, 0, 0)] + ([UpdatePolicy(q)] + [Adv(0, 0, 0), Adv(0, 0, 0)])
  }

  const RUN := JOIN + (Reports(NEITHER) + (Mixed(FIPS_ONLY) + Beats(1)))

  lemma NeitherItems()
    ensures Items(NEITHER) == [Item("", "OS FIPS mode", Fail, ""), Item("", "Disk encryption", Fail, "")]
  {
    assert NEITHER.sections[..0] == [];
    assert AllItems([]) == [];
  }

  lemma NeitherMeets()
    ensures !Meets(DISK_ONLY, NEITHER) && !Meets(FIPS_ONLY, NEITHER)
  {
    NeitherItems();
    assert !Clears(DISK_ONLY, Items(NEITHER)[1]);
    assert !Clears(FIPS_ONLY, Items(NEITHER)[0]);
  }

  function Looking(report: Report, start: Policy, seen: seq<Policy>): map<nat, Thread> {
    map[0 := ReportLooking(0, report, start, seen, true)]
  }

  /** Opening the evaluation and looking at the first of two items. */
  lemma FirstLook(limits: Limits, s: State, report: Report)
    requires s.threads == map[0 := ReportGraded(0, report)] && s.policy.mode != Disabled
    requires |Items(report)| == 2 && Clears(s.policy, Items(report)[0])
    ensures After(limits, s, [Adv(0, 0, 0), Adv(0, 0, 0)]) == s.(threads := Looking(report, s.policy, [s.policy]))
  {
    var s1 := s.(threads := Looking(report, s.policy, []));
    AfterTwo(limits, s, Adv(0, 0, 0), Adv(0, 0, 0));
    LookStarts(limits, s, 0, 0, report);
    assert s.threads[0 := ReportLooking(0, report, s.policy, [], true)] == s1.threads;
    LookGoesOn(limits, s1, 0, s1.threads[0]);
    assert [] + [s.policy] == [s.policy];
  }

  /** Looking at the second item, and storing the verdict. */
  lemma SecondLook(limits: Limits, s: State, report: Report, p: Policy)
    requires s.threads == Looking(report, p, [p]) && 0 in s.db.nodes
    requires |Items(report)| == 2 && Clears(s.policy, Items(report)[1])
    ensures var t := After(limits, s, [Adv(0, 0, 0), Adv(0, 0, 0)]);
      t == s.(db := SetCompliance(s.db, 0, Compliant), threads := map[],
              history := Then(s.history, Judged(0, report, p, [p, s.policy])))
  {
    var s1 := s.(threads := Looking(report, p, [p, s.policy]));
    AfterTwo(limits, s, Adv(0, 0, 0), Adv(0, 0, 0));
    LookGoesOn(limits, s, 0, s.threads[0]);
    assert [p] + [s.policy] == [p, s.policy];
    assert s.threads[0 := s1.threads[0]] == s1.threads;
    LookEnds(limits, s1, 0, s1.threads[0]);
    assert s1.threads - {0} == map[];
  }

  /** The evaluation from the grade to the verdict, the policy replaced half way. */
  lemma MixedRun(limits: Limits, s: State, report: Report, q: Policy)
    requires s.threads == map[0 := ReportGraded(0, report)] && s.policy.mode != Disabled && 0 in s.db.nodes
    requires |Items(report)| == 2 && Clears(s.policy, Items(report)[0]) && Clears(q, Items(report)[1])
    requires !q.mode.OtherMode?
    ensures After(limits, s, Mixed(q))
         == s.(policy := q, db := SetCompliance(s.db, 0, Compliant), threads := map[],
               history := Then(s.history, Judged(0, report, s.policy, [s.policy, q])))
  {
    var two := [Adv(0, 0, 0), Adv(0, 0, 0)];
    FirstLook(limits, s, report);
    var looked := s.(threads := Looking(report, s.policy, [s.policy]));
    AfterSplit(limits, s, two, [UpdatePolicy(q)] + two);
    AfterFirst(limits, looked, UpdatePolicy(q), two);
    SecondLook(limits, looked.(policy := q), report, s.policy);
  }

  lemma FipsClearsUnderDisk()
    ensures Clears(DISK_ONLY, Item("", "OS FIPS mode", Fail, "")) && Clears(FIPS_ONLY, Item("", "Disk encryption", Fail, ""))
  {
    assert "OS FIPS mode"[0] != "Disk encryption"[0];
    assert "OS FIPS mode"[0] != "FIPS backend active"[0] && "Disk encryption"[0] != "FIPS backend active"[0];
  }

  /** After enrolling, reporting and one heartbeat the node is routable under enforcement; its one report meets
      neither the policy before the update nor the one after. */
  lemma MixedPoliciesRouteFailingNode(limits: Limits, clock: Time)
    ensures var s := After(limits, Start(DISK_ONLY, clock), RUN);
      && 0 in s.db.nodes && s.db.nodes[0].role == Server && s.policy == FIPS_ONLY && s.policy.mode == Enforce
      && Routable(s.policy, s.db.nodes[0])
      && LastVerdict(s.history, 0) == Some(Evaluation(NEITHER, DISK_ONLY, [DISK_ONLY, FIPS_ONLY]))
      && !Meets(DISK_ONLY, NEITHER) && !Meets(FIPS_ONLY, NEITHER)
  {
    NeitherMeets();
    NeitherItems();
    FipsClearsUnderDisk();
    Joins(limits, DISK_ONLY, clock);
    var joined := After(limits, Start(DISK_ONLY, clock), JOIN);
    AfterSplit(limits, Start(DISK_ONLY, clock), JOIN, Reports(NEITHER) + (Mixed(FIPS_ONLY) + Beats(1)));
    ReportThenMix(limits, joined, NEITHER, FIPS_ONLY);
  }

  /** From the enrolled node to the end, for any two items that clear each under its own policy. */
  lemma ReportThenMix(limits: Limits, s: State, report: Report, q: Policy)
    requires s.threads == map[] && s.policy.mode != Disabled && 0 in s.db.nodes && !q.mode.OtherMode?
    requires |Items(report)| == 2 && Clears(s.policy, Items(report)[0]) && Clears(q, Items(report)[1])
    ensures var t := After(limits, s, Reports(report) + (Mixed(q) + Beats(1)));
      && 0 in t.db.nodes && t.policy == q && t.db.nodes[0].role == s.db.nodes[0].role
      && t.db.nodes[0].status == Online && t.db.nodes[0].compliance == Compliant
      && LastVerdict(t.history, 0) == Some(Evaluation(report, s.policy, [s.policy, q]))
  {
    ReportsRun(limits, s, report);
    var graded := After(limits, s, Reports(report));
    AfterSplit(limits, s, Reports(report), Mixed(q) + Beats(1));
    MixedRun(limits, graded, report, q);
    AfterSplit(limits, graded, Mixed(q), Beats(1));
    BeatsRun(limits, After(limits, graded, Mixed(q)), 1);
  }
}
