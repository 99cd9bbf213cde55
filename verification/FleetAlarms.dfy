/** Alarms of a pass that other requests interleave with: the write of a listed row is decided by the row as it
    was listed and by the clock read after listing, whatever the node has sent meanwhile. */
module FleetAlarms {
  import opened FleetTypes
  import opened FleetStore
  import opened CompliancePolicy
  import opened StaleNodes
  import opened FleetRuns
  import opened FleetSafety
  import opened FleetProvenance
  import opened FleetAtomicity
  import opened FleetExamples

  type Rows = seq<(NodeId, Node)>

  /** The pass is still the one that listed these rows at that time. */
  predicate OfListing(scan: Scan, at: Time, rows: Rows) {
    match scan
    case Waiting => false
    case Listed(a, r) => a == at && r == rows
    case Writing(a, _, todo) => a == at && |todo| <= |rows| && todo == rows[|rows| - |todo|..]
  }

  /** The pass does not end during these steps. */
  ghost predicate PassRuns(limits: Limits, s: State, mid: seq<Step>) {
    mid != [] ==> PassRuns(limits, s, mid[..|mid| - 1]) && !After(limits, s, mid).scan.Waiting?
  }

  lemma OfListingStep(limits: Limits, s: State, step: Step, at: Time, rows: Rows)
    requires OfListing(s.scan, at, rows) && !Apply(limits, s, step).scan.Waiting?
    ensures OfListing(Apply(limits, s, step).scan, at, rows)
  {
    if step.ScanStep? {
      ScanMoves(limits, s, at, rows);
    } else {
      ScanOnlyBySteps(limits, s, step);
    }
  }

  lemma ScanOnlyBySteps(limits: Limits, s: State, step: Step)
    requires !s.scan.Waiting? && !step.ScanStep?
    ensures Apply(limits, s, step).scan == s.scan
  {
  }

  lemma ScanMoves(limits: Limits, s: State, at: Time, rows: Rows)
    requires OfListing(s.scan, at, rows) && !Apply(limits, s, ScanStep).scan.Waiting?
    ensures OfListing(Apply(limits, s, ScanStep).scan, at, rows)
  {
  }

  lemma {:induction false} ListingKept(limits: Limits, s: State, mid: seq<Step>, at: Time, rows: Rows)
    requires OfListing(s.scan, at, rows) && PassRuns(limits, s, mid)
    ensures OfListing(After(limits, s, mid).scan, at, rows)
  {
    if mid == [] {
    } else {
      var init := mid[..|mid| - 1];
      ListingKept(limits, s, init, at, rows);
      OfListingStep(limits, After(limits, s, init), mid[|mid| - 1], at, rows);
    }
  }

  /** After any run, a listing, and any steps during which the pass runs, the pass is about to write a node. */
  ghost predicate AboutToWrite(w: World, first: seq<Step>, order: seq<NodeId>, mid: seq<Step>, id: NodeId) {
    var listing := Final(w, first);
    && listing.scan.Waiting? && IsListing(listing.db.nodes, order)
    && PassRuns(w.limits, Apply(w.limits, listing, Step.ScanList(order)), mid)
    && var s := Interrupted(w, first, order, mid);
       s.scan.Writing? && s.scan.todo != [] && s.scan.todo[0].0 == id
  }

  ghost function Interrupted(w: World, first: seq<Step>, order: seq<NodeId>, mid: seq<Step>): State {
    After(w.limits, Apply(w.limits, Final(w, first), Step.ScanList(order)), mid)
  }

  /** The row about to be written is the one listed. */
  lemma RowIsListed(w: World, first: seq<Step>, order: seq<NodeId>, mid: seq<Step>, id: NodeId)
    requires AboutToWrite(w, first, order, mid, id)
    ensures var listing, s := Final(w, first), Interrupted(w, first, order, mid);
      && id in listing.db.nodes && s.scan.todo[0].1 == listing.db.nodes[id] && s.scan.at == listing.clock
  {
    var listing, s := Final(w, first), Interrupted(w, first, order, mid);
    var listed := Apply(w.limits, listing, Step.ScanList(order));
    var rows := listed.scan.rows;
    ListingKept(w.limits, listed, mid, listing.clock, rows);
    var i := |rows| - |s.scan.todo|;
    assert s.scan.todo[0] == rows[i] == (order[i], listing.db.nodes[order[i]]);
  }

  /** The interrupted pass: a node that was online when listed is demoted exactly when the whole seconds of its
      last heartbeat before the listing were more than `degradedAfter` old when the pass read its clock;
      whatever was accepted in between makes no difference. */
  lemma {:induction false} InterruptedPassDecides(w: World, first: seq<Step>, order: seq<NodeId>, mid: seq<Step>,
                                                  id: NodeId)
    requires AboutToWrite(w, first, order, mid, id) && w.limits.degradedAfter <= w.limits.offlineAfter
    requires id in Final(w, first).db.nodes && Final(w, first).db.nodes[id].status == Online
    ensures LastStamp(Final(w, first).history, id).Some?
    ensures var s := Interrupted(w, first, order, mid);
      var elapsed := s.scan.now - Stored(LastStamp(Final(w, first).history, id).value);
      Apply(w.limits, s, ScanStep).db ==
        if elapsed > w.limits.offlineAfter then SetStatus(s.db, id, Offline)
        else if elapsed > w.limits.degradedAfter then SetStatus(s.db, id, Degraded)
        else s.db
  {
    RowIsListed(w, first, order, mid, id);
    StampIsStored(w.limits, w.policy, w.clock, first, id);
  }

  /** A node heard of at most `gap` before the listing, by a pass that takes at most `delay` from listing to
      reading its clock, is left alone. */
  ghost predicate Spares(w: World, first: seq<Step>, order: seq<NodeId>, mid: seq<Step>, id: NodeId, gap: nat,
                         delay: nat) {
    AboutToWrite(w, first, order, mid, id) && id in Final(w, first).db.nodes && Final(w, first).db.nodes[id].status == Online
    && LastStamp(Final(w, first).history, id).Some?
    && Final(w, first).clock - LastStamp(Final(w, first).history, id).value <= gap
    && Interrupted(w, first, order, mid).scan.now - Final(w, first).clock <= delay
    ==> Apply(w.limits, Interrupted(w, first, order, mid), ScanStep).db == Interrupted(w, first, order, mid).db
  }

  lemma PunctualIsSpared(w: World, first: seq<Step>, order: seq<NodeId>, mid: seq<Step>, id: NodeId, gap: nat,
                         delay: nat)
    requires w.limits.degradedAfter <= w.limits.offlineAfter && gap + delay + SECOND - 1 <= w.limits.degradedAfter
    ensures Spares(w, first, order, mid, id, gap, delay)
  {
    if AboutToWrite(w, first, order, mid, id) && id in Final(w, first).db.nodes && Final(w, first).db.nodes[id].status == Online {
      InterruptedPassDecides(w, first, order, mid, id);
    }
  }

  // ---- a false alarm ----

  /** Node 0 enrolls in the last nanosecond of a second. */
  const LATE: Time := SECOND - 1

  function Waits(gap: nat): seq<Step> {
    JOIN + [Tick(gap)]
  }

  /** The pass takes its time before reading the clock; the node is heard of before the write. */
  function Delays(delay: nat): seq<Step> {
    [Tick(delay), ScanStep] + Beats(0)
  }

  lemma WaitsRun(w: World, gap: nat)
    requires w.clock == LATE
    ensures var s := Final(w, Waits(gap));
      && s.threads == map[] && s.scan == Waiting && s.clock == LATE + gap
      && s.db.nodes.Keys == {0} && s.db.nodes[0].status == Online && s.db.nodes[0].lastHeartbeat == 0
      && LastStamp(s.history, 0) == Some(LATE)
  {
    Joins(w.limits, w.policy, w.clock);
    AfterSplit(w.limits, Start(w.policy, w.clock), JOIN, [Tick(gap)]);
    AfterOne(w.limits, Final(w, JOIN), Tick(gap));
    assert Stored(LATE) == 0;
  }

  lemma ReadsClock(limits: Limits, s: State, at: Time, rows: Rows, delay: nat)
    requires s.scan == Listed(at, rows)
    ensures After(limits, s, [Tick(delay), ScanStep])
         == s.(clock := s.clock + delay, scan := Writing(at, s.clock + delay, rows))
  {
    AfterTwo(limits, s, Tick(delay), ScanStep);
  }

  lemma DelaysRun(limits: Limits, s: State, at: Time, rows: Rows, delay: nat)
    requires s.scan == Listed(at, rows) && s.threads == map[] && 0 in s.db.nodes
    ensures var t := After(limits, s, Delays(delay));
      && t.scan == Writing(at, s.clock + delay, rows) && PassRuns(limits, s, Delays(delay))
      && t.db == SetHeartbeat(s.db, 0, s.clock + delay) && t.clock == s.clock + delay
      && LastContact(t.history, 0) == Some(t.clock)
  {
    var s2 := s.(clock := s.clock + delay, scan := Writing(at, s.clock + delay, rows));
    ReadsClock(limits, s, at, rows, delay);
    AfterSplit(limits, s, [Tick(delay), ScanStep], Beats(0));
    BeatsRun(limits, s2, 0);
    DelaysPass(limits, s, at, rows, delay);
  }

  lemma PassRunsMore(limits: Limits, s: State, mid: seq<Step>, step: Step)
    requires PassRuns(limits, s, mid) && !Apply(limits, After(limits, s, mid), step).scan.Waiting?
    ensures PassRuns(limits, s, mid + [step])
    ensures After(limits, s, mid + [step]) == Apply(limits, After(limits, s, mid), step)
  {
    assert (mid + [step])[..|mid + [step]| - 1] == mid;
  }

  lemma DelaysPass(limits: Limits, s: State, at: Time, rows: Rows, delay: nat)
    requires s.scan == Listed(at, rows) && s.threads == map[] && 0 in s.db.nodes
    ensures PassRuns(limits, s, Delays(delay))
  {
    assert PassRuns(limits, s, []);
    PassRunsMore(limits, s, [], Tick(delay));
    assert [] + [Tick(delay)] == [Tick(delay)];
    PassRunsMore(limits, s, [Tick(delay)], ScanStep);
    assert [Tick(delay)] + [ScanStep] == [Tick(delay), ScanStep];
    PassRunsMore(limits, s, [Tick(delay), ScanStep], StartHeartbeat(0, 0));
    var three := [Tick(delay), ScanStep] + [StartHeartbeat(0, 0)];
    PassRunsMore(limits, s, three, Adv(0, 0, 0));
    assert three + [Adv(0, 0, 0)] == Delays(delay);
  }

  /** The run up to the write. */
  lemma AlarmRun(w: World, gap: nat, delay: nat)
    requires w.clock == LATE
    ensures AboutToWrite(w, Waits(gap), [0], Delays(delay), 0)
    ensures var s := Interrupted(w, Waits(gap), [0], Delays(delay));
      && s.scan.now == LATE + gap + delay == s.clock && 0 in s.db.nodes
      && s.db.nodes[0].lastHeartbeat == Stored(s.clock) && s.db.nodes[0].status == Online
      && LastContact(s.history, 0) == Some(s.clock)
  {
    WaitsRun(w, gap);
    var s := Final(w, Waits(gap));
    var listed := Apply(w.limits, s, Step.ScanList([0]));
    assert IsListing(s.db.nodes, [0]);
    DelaysRun(w.limits, listed, s.clock, listed.scan.rows, delay);
  }

  /** A run whose last step demotes a node in the very instant its heartbeat was accepted, whenever the gap and
      the delay exceed the margin. */
  lemma FalseAlarm(w: World, gap: nat, delay: nat)
    requires w.clock == LATE && w.limits.degradedAfter <= w.limits.offlineAfter
    requires gap + delay + SECOND - 1 > w.limits.degradedAfter
    ensures !Spares(w, Waits(gap), [0], Delays(delay), 0, gap, delay)
    ensures var after := Apply(w.limits, Interrupted(w, Waits(gap), [0], Delays(delay)), ScanStep);
      && 0 in after.db.nodes && after.db.nodes[0].status != Online
      && after.db.nodes[0].lastHeartbeat == Stored(after.clock) && LastContact(after.history, 0) == Some(after.clock)
  {
    WaitsRun(w, gap);
    AlarmRun(w, gap, delay);
    InterruptedPassDecides(w, Waits(gap), [0], Delays(delay), 0);
  }

  /** No pass, however interleaved, demotes a node heard of at most `gap` before it listed, if it reads its clock
      at most `delay` later, exactly when the two and the truncation fit into `degradedAfter`. */
  lemma NoFalseAlarmIff(limits: Limits, gap: nat, delay: nat)
    requires limits.degradedAfter <= limits.offlineAfter
    ensures (forall w: World, first, order, mid, id | w.limits == limits :: Spares(w, first, order, mid, id, gap, delay))
            <==> gap + delay + SECOND - 1 <= limits.degradedAfter
  {
    if gap + delay + SECOND - 1 <= limits.degradedAfter {
      forall w: World, first, order, mid, id | w.limits == limits
        ensures Spares(w, first, order, mid, id, gap, delay)
      {
        PunctualIsSpared(w, first, order, mid, id, gap, delay);
      }
    } else {
      var w := World(limits, Policy(Audit, false, false, false, 0), LATE);
      FalseAlarm(w, gap, delay);
      assert !Spares(w, Waits(gap), [0], Delays(delay), 0, gap, delay);
    }
  }
}
