/** Where verdicts come from: the report was sent by the node itself while it was enrolled, and every item was
    held against the policy in force at the step that looked at it. */
module FleetProvenance {
  import opened FleetTypes
  import opened FleetStore
  import opened CompliancePolicy
  import opened StaleNodes
  import opened FleetRuns
  import opened FleetSafety

  /** What a run starts from. */
  datatype World = World(limits: Limits, policy: Policy, clock: Time)

  /** The state before step `k`. */
  ghost function At(w: World, steps: seq<Step>, k: nat): State
    requires k <= |steps|
  {
    After(w.limits, Start(w.policy, w.clock), steps[..k])
  }

  ghost function Final(w: World, steps: seq<Step>): State {
    After(w.limits, Start(w.policy, w.clock), steps)
  }

  /** Step `k` started a report of the node, which was enrolled then. */
  ghost predicate SentAt(w: World, steps: seq<Step>, k: nat, node: NodeId, report: Report) {
    && k < |steps| && steps[k].StartReport? && steps[k].node == node && steps[k].report == report
    && node in At(w, steps, k).db.nodes && steps[k].thread !in At(w, steps, k).threads
  }

  /** The policies are those in force before the steps `ks`, which come one after the other after step `from`. */
  ghost predicate InForce(w: World, steps: seq<Step>, from: nat, ks: seq<nat>, policies: seq<Policy>) {
    && |ks| == |policies|
    && (forall i :: 0 <= i < |ks| ==> from < ks[i] < |steps| && At(w, steps, ks[i]).policy == policies[i])
    && (forall i, j :: 0 <= i < j < |ks| ==> ks[i] < ks[j])
  }

  ghost predicate Sent(w: World, steps: seq<Step>, node: NodeId, report: Report) {
    exists k :: SentAt(w, steps, k, node, report)
  }

  ghost predicate Evaluated(w: World, steps: seq<Step>, node: NodeId, report: Report, read: seq<Policy>) {
    exists k, ks :: SentAt(w, steps, k, node, report) && InForce(w, steps, k, ks, read)
  }

  lemma AtLater(w: World, steps: seq<Step>, step: Step, k: nat)
    requires k <= |steps|
    ensures At(w, steps + [step], k) == At(w, steps, k)
  {
    assert (steps + [step])[..k] == steps[..k];
  }

  lemma SentLater(w: World, steps: seq<Step>, step: Step, k: nat, node: NodeId, report: Report)
    requires SentAt(w, steps, k, node, report)
    ensures SentAt(w, steps + [step], k, node, report)
  {
    AtLater(w, steps, step, k);
  }

  lemma InForceLater(w: World, steps: seq<Step>, step: Step, from: nat, ks: seq<nat>, read: seq<Policy>)
    requires InForce(w, steps, from, ks, read)
    ensures InForce(w, steps + [step], from, ks, read)
  {
    forall i | 0 <= i < |ks|
      ensures At(w, steps + [step], ks[i]).policy == read[i]
    {
      AtLater(w, steps, step, ks[i]);
    }
  }

  /** A step that reads the policy reads the one in force. */
  lemma InForceMore(w: World, steps: seq<Step>, step: Step, from: nat, ks: seq<nat>, read: seq<Policy>)
    requires InForce(w, steps, from, ks, read) && from < |steps|
    ensures InForce(w, steps + [step], from, ks + [|steps|], read + [Final(w, steps).policy])
  {
    InForceLater(w, steps, step, from, ks, read);
    AtLater(w, steps, step, |steps|);
    assert steps[..|steps|] == steps;
  }

  ghost predicate ThreadSourced(w: World, steps: seq<Step>, t: Thread) {
    match t
    case ReportReceived(node, report) => Sent(w, steps, node, report)
    case ReportSaved(node, report) => Sent(w, steps, node, report)
    case ReportCounted(node, report) => Sent(w, steps, node, report)
    case ReportStamped(node, report, _) => Sent(w, steps, node, report)
    case ReportBeaten(node, report) => Sent(w, steps, node, report)
    case ReportGraded(node, report) => Sent(w, steps, node, report)
    case ReportLooking(node, report, start, seen, _) => Evaluated(w, steps, node, report, [start] + seen)
    case _ => true
  }

  ghost predicate VerdictsSourced(w: World, steps: seq<Step>, h: History) {
    match h
    case Begin => true
    case Then(before, Judged(node, report, start, seen)) =>
      Evaluated(w, steps, node, report, [start] + seen) && VerdictsSourced(w, steps, before)
    case Then(before, _) => VerdictsSourced(w, steps, before)
  }

  ghost predicate Sourced(w: World, steps: seq<Step>) {
    && (forall th <- Final(w, steps).threads :: ThreadSourced(w, steps, Final(w, steps).threads[th]))
    && VerdictsSourced(w, steps, Final(w, steps).history)
  }

  lemma EvaluatedLater(w: World, steps: seq<Step>, step: Step, node: NodeId, report: Report, read: seq<Policy>)
    requires Evaluated(w, steps, node, report, read)
    ensures Evaluated(w, steps + [step], node, report, read)
  {
    var k, ks :| SentAt(w, steps, k, node, report) && InForce(w, steps, k, ks, read);
    SentLater(w, steps, step, k, node, report);
    InForceLater(w, steps, step, k, ks, read);
  }

  lemma ThreadLater(w: World, steps: seq<Step>, step: Step, t: Thread)
    requires ThreadSourced(w, steps, t)
    ensures ThreadSourced(w, steps + [step], t)
  {
    if t.ReportLooking? {
      EvaluatedLater(w, steps, step, t.node, t.report, [t.start] + t.seen);
    } else if t.ReportReceived? || t.ReportSaved? || t.ReportCounted? || t.ReportStamped? || t.ReportBeaten? || t.ReportGraded? {
      var k :| SentAt(w, steps, k, t.node, t.report);
      SentLater(w, steps, step, k, t.node, t.report);
    }
  }

  lemma {:induction false} VerdictsLater(w: World, steps: seq<Step>, step: Step, h: History)
    requires VerdictsSourced(w, steps, h)
    ensures VerdictsSourced(w, steps + [step], h)
  {
    match h
    case Begin =>
    case Then(before, e) =>
      VerdictsLater(w, steps, step, before);
      if e.Judged? { EvaluatedLater(w, steps, step, e.node, e.report, [e.start] + e.seen); }
  }

  /** The thread after its next step reads the policy in force at that step. */
  lemma ThreadAdvances(w: World, steps: seq<Step>, step: Step, t: Thread, newId: NodeId, key: Hash)
    requires ThreadSourced(w, steps, t)
    ensures match ThreadNext(Final(w, steps), t, newId, key)
      case None => true
      case Some(next) => ThreadSourced(w, steps + [step], next)
  {
    ThreadLater(w, steps, step, t);
    if t.ReportGraded? {
      var k :| SentAt(w, steps, k, t.node, t.report);
      SentLater(w, steps, step, k, t.node, t.report);
      InForceMore(w, steps, step, k, [], []);
      assert [Final(w, steps).policy] + [] == [] + [Final(w, steps).policy];
    } else if t.ReportLooking? {
      var read := [t.start] + t.seen;
      var k, ks :| SentAt(w, steps, k, t.node, t.report) && InForce(w, steps, k, ks, read);
      SentLater(w, steps, step, k, t.node, t.report);
      InForceMore(w, steps, step, k, ks, read);
      assert read + [Final(w, steps).policy] == [t.start] + (t.seen + [Final(w, steps).policy]);
    }
  }

  lemma FinalMore(w: World, steps: seq<Step>, step: Step)
    ensures Final(w, steps + [step]) == Apply(w.limits, Final(w, steps), step)
  {
    assert (steps + [step])[..|steps + [step]| - 1] == steps;
  }

  lemma Starts(w: World, steps: seq<Step>, step: Step)
    requires step.StartReport? && step.node in Final(w, steps).db.nodes && step.thread !in Final(w, steps).threads
    ensures Sent(w, steps + [step], step.node, step.report)
  {
    AtLater(w, steps, step, |steps|);
    assert steps[..|steps|] == steps;
    assert SentAt(w, steps + [step], |steps|, step.node, step.report);
  }

  lemma ThreadsSourcedStep(w: World, steps: seq<Step>, step: Step)
    requires Sourced(w, steps)
    ensures var after := Final(w, steps + [step]);
      forall th <- after.threads :: ThreadSourced(w, steps + [step], after.threads[th])
  {
    var s := Final(w, steps);
    FinalMore(w, steps, step);
    forall th | th in s.threads
      ensures ThreadSourced(w, steps + [step], s.threads[th])
    {
      ThreadLater(w, steps, step, s.threads[th]);
    }
    match step
    case StartReport(th, node, report) => if node in s.db.nodes && th !in s.threads { Starts(w, steps, step); }
    case Advance(th, newId, key) => if th in s.threads { ThreadAdvances(w, steps, step, s.threads[th], newId, key); }
    case _ =>
  }

  lemma VerdictsSourcedStep(w: World, steps: seq<Step>, step: Step)
    requires Sourced(w, steps)
    ensures VerdictsSourced(w, steps + [step], Final(w, steps + [step]).history)
  {
    var s := Final(w, steps);
    FinalMore(w, steps, step);
    VerdictsLater(w, steps, step, s.history);
    match step
    case Advance(th, _, _) => if th in s.threads { ThreadLater(w, steps, step, s.threads[th]); }
    case _ =>
  }

  lemma {:induction false} SourcedAlways(w: World, steps: seq<Step>)
    ensures Sourced(w, steps)
  {
    if steps == [] {
    } else {
      var init, last := steps[..|steps| - 1], steps[|steps| - 1];
      SourcedAlways(w, init);
      assert init + [last] == steps;
      ThreadsSourcedStep(w, init, last);
      VerdictsSourcedStep(w, init, last);
    }
  }

  lemma {:induction false} LastVerdictSourced(w: World, steps: seq<Step>, h: History, node: NodeId)
    requires VerdictsSourced(w, steps, h)
    ensures match LastVerdict(h, node)
      case None => true
      case Some(e) => Evaluated(w, steps, node, e.report, [e.start] + e.seen)
  {
    match h
    case Begin =>
    case Then(before, _) => LastVerdictSourced(w, steps, before, node);
  }

  /** Under an enforcing policy every routable node has itself sent a report while enrolled, whose items each
      passed under the policy in force at the step that looked at them; the evaluation was opened under a
      policy that was not disabled. So no node is routable before such a report. */
  lemma EnforcedRouteSentPassingReport(w: World, steps: seq<Step>, id: NodeId, policy: Policy)
    returns (e: Evaluation, k: nat, ks: seq<nat>)
    requires id in Final(w, steps).db.nodes && policy.mode == Enforce && Routable(policy, Final(w, steps).db.nodes[id])
    ensures SentAt(w, steps, k, id, e.report)
    ensures InForce(w, steps, k, ks, [e.start] + e.seen)
    ensures Complete(e) && MeetsEach(e.seen, e.report)
    ensures LastVerdict(Final(w, steps).history, id) == Some(e)
  {
    EnforcedRouteHasPassed(w.limits, w.policy, w.clock, steps, id, policy);
    SourcedAlways(w, steps);
    LastVerdictSourced(w, steps, Final(w, steps).history, id);
    e := LastVerdict(Final(w, steps).history, id).value;
    k, ks :| SentAt(w, steps, k, id, e.report) && InForce(w, steps, k, ks, [e.start] + e.seen);
  }

  /** The report behind an enforced route meets a given policy exactly when, on each of its items that does
      not pass, that policy agrees with the one in force at the item's turn whether to look at it. */
  lemma EnforcedRouteMeets(w: World, steps: seq<Step>, id: NodeId, policy: Policy, p: Policy)
    requires id in Final(w, steps).db.nodes && policy.mode == Enforce && Routable(policy, Final(w, steps).db.nodes[id])
    ensures match LastVerdict(Final(w, steps).history, id)
      case None => false
      case Some(e) =>
        && Complete(e)
        && (Meets(p, e.report) <==>
              forall i :: 0 <= i < |e.seen| && Items(e.report)[i].status != Pass ==>
                LooksAt(p, Items(e.report)[i]) == LooksAt(e.seen[i], Items(e.report)[i]))
  {
    EnforcedRouteHasPassed(w.limits, w.policy, w.clock, steps, id, policy);
    var e := LastVerdict(Final(w, steps).history, id).value;
    OnePolicyIsMet(p, e.seen, e.report);
  }

  // ---- one policy throughout ----

  /** No step in the range changes what the policy asks for. */
  ghost predicate Undisturbed(w: World, steps: seq<Step>, lo: nat, hi: nat)
    requires lo <= hi <= |steps|
  {
    forall j :: lo <= j < hi && steps[j].UpdatePolicy? && !steps[j].policy.mode.OtherMode? ==>
      SameDemands(At(w, steps, j).policy, steps[j].policy)
  }

  lemma PolicyStep(limits: Limits, s: State, step: Step)
    ensures Apply(limits, s, step).policy
         == if step.UpdatePolicy? && !step.policy.mode.OtherMode? then step.policy else s.policy
  {
  }

  lemma {:induction false} DemandsStay(w: World, steps: seq<Step>, lo: nat, hi: nat)
    requires lo <= hi <= |steps| && Undisturbed(w, steps, lo, hi)
    ensures SameDemands(At(w, steps, lo).policy, At(w, steps, hi).policy)
    decreases hi
  {
    if lo < hi {
      DemandsStay(w, steps, lo, hi - 1);
      assert steps[..hi][..hi - 1] == steps[..hi - 1];
      PolicyStep(w.limits, At(w, steps, hi - 1), steps[hi - 1]);
    }
  }

  /** An evaluation during which the demands stay the same judges like the policy that opened it. */
  lemma UndisturbedEvaluation(w: World, steps: seq<Step>, k: nat, ks: seq<nat>, e: Evaluation)
    requires |e.seen| == |Items(e.report)| && InForce(w, steps, k, ks, [e.start] + e.seen)
    requires Undisturbed(w, steps, ks[0], ks[|ks| - 1])
    ensures MeetsEach(e.seen, e.report) <==> Meets(e.start, e.report)
  {
    forall i | 0 <= i < |e.seen|
      ensures SameDemands(e.start, e.seen[i])
    {
      assert e.seen[i] == ([e.start] + e.seen)[i + 1];
      assert ks[i + 1] <= ks[|ks| - 1] && ks[0] < ks[i + 1];
      DemandsStay(w, steps, ks[0], ks[i + 1]);
    }
    SteadyReadsJudgeAlike(e.start, e.seen, e.report);
  }

  // ---- a node enrolls once ----

  function Enrollments(h: History, node: NodeId): nat {
    match h
    case Begin => 0
    case Then(before, Enrolled(n, _, _, _, _)) => Enrollments(before, node) + if n == node then 1 else 0
    case Then(before, _) => Enrollments(before, node)
  }

  predicate Admitted(t: Thread, node: NodeId) {
    t.EnrollAdmitted? && t.node == node
  }

  /** An id is drawn by at most one enrollment, which creates at most one node. */
  ghost predicate DrawnOnce(s: State, node: NodeId) {
    && (forall a <- s.threads, b <- s.threads :: Admitted(s.threads[a], node) && Admitted(s.threads[b], node) ==> a == b)
    && (forall a <- s.threads :: Admitted(s.threads[a], node) ==> node in s.drawn && Enrollments(s.history, node) == 0)
    && (node !in s.drawn ==> Enrollments(s.history, node) == 0)
    && Enrollments(s.history, node) <= 1
  }

  lemma EnrollmentsStep(limits: Limits, s: State, step: Step, node: NodeId)
    ensures Enrollments(Apply(limits, s, step).history, node)
         == Enrollments(s.history, node)
            + if step.Advance? && step.thread in s.threads && Admitted(s.threads[step.thread], node)
                 && CanInsertNode(s.db, node, s.threads[step.thread].inserted) then 1 else 0
  {
  }

  lemma DrawnOnceStep(limits: Limits, s: State, step: Step, node: NodeId)
    requires DrawnOnce(s, node)
    ensures DrawnOnce(Apply(limits, s, step), node)
  {
    EnrollmentsStep(limits, s, step, node);
  }

  /** In every run a node enrolls at most once, so one that was enrolled when it reported, and is now, never left. */
  lemma {:induction false} NodeEnrollsOnce(w: World, steps: seq<Step>, node: NodeId)
    ensures DrawnOnce(Final(w, steps), node)
  {
    if steps == [] {
    } else {
      var init := steps[..|steps| - 1];
      NodeEnrollsOnce(w, init, node);
      DrawnOnceStep(w.limits, Final(w, init), steps[|steps| - 1], node);
    }
  }
}
