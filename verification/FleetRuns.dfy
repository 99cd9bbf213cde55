/** The fleet controller as a timed transition system. Requests run as threads whose store statements
    interleave with each other and with the monitor's pass; a step whose guard fails changes nothing.
    The history records what the store accepted and is never read by a step. */
module FleetRuns {
  import opened FleetTypes
  import opened FleetStore
  import opened CompliancePolicy
  import opened StaleNodes
  import opened Enrollments

  /** What an enrollment asked for and when its token was checked. */
  datatype Admission = Admission(req: EnrollRequest, checkedAt: Time)

  /** Where a request stands between two store statements. A report under evaluation has read its policy
      once at the start and once for each of the items looked at so far; an item's outcome depends on one
      dereference only, its name selecting which. */
  datatype Thread =
    | EnrollRead(token: TokenId, row: Token, req: EnrollRequest)
    | EnrollChecked(token: TokenId, row: Token, admission: Admission)
    | EnrollAdmitted(token: TokenId, node: NodeId, inserted: Node, admission: Admission)
    | EnrollCreated(token: TokenId)
    | Beating(node: NodeId, stamp: Time)
    | ReportReceived(node: NodeId, report: Report)
    | ReportSaved(node: NodeId, report: Report)
    | ReportCounted(node: NodeId, report: Report)
    | ReportStamped(node: NodeId, report: Report, stamp: Time)
    | ReportBeaten(node: NodeId, report: Report)
    | ReportGraded(node: NodeId, report: Report)
    | ReportLooking(node: NodeId, report: Report, start: Policy, seen: seq<Policy>, compliant: bool)

  /** The monitor's single loop: waiting, rows listed, or writing the rows still in `todo`. */
  datatype Scan =
    | Waiting
    | Listed(at: Time, rows: seq<(NodeId, Node)>)
    | Writing(at: Time, now: Time, todo: seq<(NodeId, Node)>)

  datatype Event =
    | Issued(token: TokenId, row: Token)
    | Enrolled(node: NodeId, token: TokenId, stamp: Time, at: Time, admission: Admission)
    | Beat(node: NodeId, stamp: Time, at: Time)
    | Graded(node: NodeId, status: NodeStatus, at: Time)
    | Judged(node: NodeId, report: Report, start: Policy, seen: seq<Policy>)
    | Demoted(node: NodeId, status: NodeStatus)
    | UseCounted(token: TokenId)
    | UseLost(token: TokenId)
    | PassDone(listedAt: Time)

  datatype History = Begin | Then(before: History, event: Event)

  datatype State = State(
    db: Tables,
    policy: Policy,
    clock: Time,
    threads: map<nat, Thread>,
    scan: Scan,
    issued: set<TokenId>,
    drawn: set<NodeId>,
    history: History)

  datatype Step =
    | Tick(elapsed: nat)
    | CreateToken(id: TokenId, hash: Hash, role: Role, region: string, uses: int, expiresIn: int)
    | DeleteToken(id: TokenId)
    | UpdatePolicy(policy: Policy)
    | DeleteNode(node: NodeId)
    | StartEnroll(thread: nat, token: TokenId, req: EnrollRequest)
    | StartHeartbeat(thread: nat, node: NodeId)
    | StartReport(thread: nat, node: NodeId, report: Report)
    | Advance(thread: nat, newId: NodeId, key: Hash)
    | Abandon(thread: nat)
    | ScanList(order: seq<NodeId>)
    | ScanStep

  function Start(policy: Policy, clock: Time): State {
    State(EMPTY, policy, clock, map[], Waiting, {}, {}, Begin)
  }

  // ---- steps ----

  function Spawn(s: State, th: nat, t: Thread): State {
    if th in s.threads then s else s.(threads := s.threads[th := t])
  }

  function Grade(report: Report): NodeStatus {
    if report.failed > 0 then Degraded else Online
  }

  /** The store after a thread's next statement. */
  function ThreadWrite(db: Tables, t: Thread): Tables {
    match t
    case EnrollAdmitted(_, node, row, _) => InsertNode(db, node, row)
    case EnrollCreated(token) => CountUse(db, token)
    case Beating(node, stamp) => SetHeartbeat(db, node, stamp)
    case ReportReceived(node, report) => InsertReport(db, node, report)
    case ReportSaved(node, report) => SetCounts(db, node, report.passed, report.failed, report.warned)
    case ReportStamped(node, _, stamp) => SetHeartbeat(db, node, stamp)
    case ReportBeaten(node, report) => SetStatus(db, node, Grade(report))
    case ReportLooking(node, report, _, seen, compliant) =>
      if |seen| < |Items(report)| then db
      else SetCompliance(db, node, if compliant then Compliant else NonCompliant)
    case _ => db
  }

  /** Updates of rows that are gone, and inserts that violate a key, leave no trace. */
  function ThreadTrace(db: Tables, t: Thread, now: Time, h: History): History {
    match t
    case EnrollAdmitted(token, node, row, admission) =>
      if CanInsertNode(db, node, row) then Then(h, Enrolled(node, token, row.lastHeartbeat, now, admission)) else h
    case EnrollCreated(token) => Then(h, UseCounted(token))
    case Beating(node, stamp) => if node in db.nodes then Then(h, Beat(node, stamp, now)) else h
    case ReportStamped(node, _, stamp) => if node in db.nodes then Then(h, Beat(node, stamp, now)) else h
    case ReportBeaten(node, report) => if node in db.nodes then Then(h, Graded(node, Grade(report), now)) else h
    case ReportLooking(node, report, start, seen, _) =>
      if node in db.nodes && |seen| >= |Items(report)| then Then(h, Judged(node, report, start, seen)) else h
    case _ => h
  }

  /** Where the thread goes next; None when the handler returns. */
  ghost function ThreadNext(s: State, t: Thread, newId: NodeId, key: Hash): Option<Thread> {
    match t
    case EnrollRead(token, row, req) =>
      if Admits(row, s.clock) then Some(EnrollChecked(token, row, Admission(req, s.clock))) else None
    case EnrollChecked(token, row, admission) =>
      Some(EnrollAdmitted(token, newId, NewNode(row, admission.req, key, s.clock), admission))
    case EnrollAdmitted(token, node, row, _) => if CanInsertNode(s.db, node, row) then Some(EnrollCreated(token)) else None
    case ReportReceived(node, report) => Some(ReportSaved(node, report))
    case ReportSaved(node, report) => Some(ReportCounted(node, report))
    case ReportCounted(node, report) => Some(ReportStamped(node, report, s.clock))
    case ReportStamped(node, report, _) => Some(ReportBeaten(node, report))
    case ReportBeaten(node, report) => Some(ReportGraded(node, report))
    case ReportGraded(node, report) =>
      if s.policy.mode == Disabled then None else Some(ReportLooking(node, report, s.policy, [], true))
    case ReportLooking(node, report, start, seen, compliant) =>
      if |seen| < |Items(report)|
      then Some(ReportLooking(node, report, start, seen + [s.policy], compliant && Clears(s.policy, Items(report)[|seen|])))
      else None
    case _ => None
  }

  ghost function AdvanceThread(s: State, th: nat, newId: NodeId, key: Hash): State
    requires th in s.threads
  {
    var t := s.threads[th];
    s.(db := ThreadWrite(s.db, t),
       history := ThreadTrace(s.db, t, s.clock, s.history),
       drawn := if t.EnrollChecked? then s.drawn + {newId} else s.drawn,
       threads := match ThreadNext(s, t, newId, key)
                  case Some(next) => s.threads[th := next]
                  case None => s.threads - {th})
  }

  ghost function Apply(c: Limits, s: State, step: Step): State {
    match step
    case Tick(elapsed) => s.(clock := s.clock + elapsed)
    case CreateToken(id, hash, role, region, uses, expiresIn) =>
      if id in s.issued then s
      else
        var row := NewToken(hash, role, region, uses, expiresIn, s.clock);
        s.(db := InsertToken(s.db, id, row), issued := s.issued + {id},
           history := if CanInsertToken(s.db, id, row) then Then(s.history, Issued(id, StoredToken(row))) else s.history)
    case DeleteToken(id) => s.(db := RemoveToken(s.db, id))
    case UpdatePolicy(policy) => if policy.mode.OtherMode? then s else s.(policy := policy)
    case DeleteNode(node) => s.(db := RemoveNode(s.db, node))
    case StartEnroll(th, token, req) =>
      if req.name != "" && token in s.db.tokens then Spawn(s, th, EnrollRead(token, s.db.tokens[token], req)) else s
    case StartHeartbeat(th, node) =>
      if node in s.db.nodes then Spawn(s, th, Beating(node, s.clock)) else s
    case StartReport(th, node, report) =>
      if node in s.db.nodes then Spawn(s, th, ReportReceived(node, report)) else s
    case Advance(th, newId, key) =>
      if th in s.threads && (s.threads[th].EnrollChecked? ==> newId !in s.drawn) then AdvanceThread(s, th, newId, key) else s
    case Abandon(th) =>
      if th in s.threads
      then s.(threads := s.threads - {th},
              history := if s.threads[th].EnrollCreated? then Then(s.history, UseLost(s.threads[th].token)) else s.history)
      else s
    case ScanList(order) =>
      if s.scan.Waiting? && IsListing(s.db.nodes, order)
      then s.(scan := Listed(s.clock, Listing(s.db.nodes, order)))
      else s
    case ScanStep =>
      match s.scan
      case Waiting => s
      case Listed(at, rows) => s.(scan := Writing(at, s.clock, rows))
      case Writing(at, now, todo) =>
        if todo == [] then s.(history := Then(s.history, PassDone(at)), scan := Waiting)
        else s.(db := ScanWrite(c, s.db, todo[0].0, todo[0].1, now),
                history := ScanTrace(c, s.db, todo[0].0, todo[0].1, now, s.history),
                scan := Writing(at, now, todo[1..]))
  }

  /** The rows a query returned, in its order. */
  ghost function Listing(rows: map<NodeId, Node>, order: seq<NodeId>): seq<(NodeId, Node)>
    requires IsListing(rows, order)
  {
    seq(|order|, i requires 0 <= i < |order| => (order[i], rows[order[i]]))
  }

  function ScanTrace(c: Limits, db: Tables, id: NodeId, row: Node, now: Time, h: History): History {
    match NewStatus(c, row, now)
    case Some(status) => if id in db.nodes then Then(h, Demoted(id, status)) else h
    case None => h
  }

  /** The state after a run. */
  ghost function After(c: Limits, s0: State, steps: seq<Step>): State {
    if steps == [] then s0 else Apply(c, After(c, s0, steps[..|steps| - 1]), steps[|steps| - 1])
  }

  lemma {:induction false} AfterSplit(c: Limits, s: State, first: seq<Step>, second: seq<Step>)
    ensures After(c, s, first + second) == After(c, After(c, s, first), second)
    decreases |second|
  {
    if second == [] {
      assert first + second == first;
    } else {
      var init := second[..|second| - 1];
      assert (first + second)[..|first + second| - 1] == first + init;
      AfterSplit(c, s, first, init);
    }
  }

  /** A run one step longer at the front. */
  lemma AfterFirst(c: Limits, s: State, step: Step, rest: seq<Step>)
    ensures After(c, s, [step] + rest) == After(c, Apply(c, s, step), rest)
  {
    AfterSplit(c, s, [step], rest);
    assert [step][..0] == [];
  }

  /** A run one step longer at the end. */
  lemma AfterLast(c: Limits, s: State, init: seq<Step>, step: Step)
    ensures After(c, s, init + [step]) == Apply(c, After(c, s, init), step)
  {
    assert (init + [step])[..|init + [step]| - 1] == init;
  }

  lemma AfterOne(limits: Limits, s: State, a: Step)
    ensures After(limits, s, [a]) == Apply(limits, s, a)
  {
    assert [a][..0] == [];
  }

  lemma AfterTwo(limits: Limits, s: State, a: Step, b: Step)
    ensures After(limits, s, [a, b]) == Apply(limits, Apply(limits, s, a), b)
  {
    assert [a, b] == [a] + [b];
    AfterFirst(limits, s, a, [b]);
    AfterOne(limits, Apply(limits, s, a), b);
  }

  lemma AfterThree(limits: Limits, s: State, a: Step, b: Step, c: Step)
    ensures After(limits, s, [a, b, c]) == Apply(limits, Apply(limits, Apply(limits, s, a), b), c)
  {
    assert [a, b, c] == [a] + [b, c] && [b, c] == [b] + [c];
    AfterFirst(limits, s, a, [b, c]);
    AfterFirst(limits, Apply(limits, s, a), b, [c]);
    AfterOne(limits, Apply(limits, Apply(limits, s, a), b), c);
  }

  lemma AfterFour(limits: Limits, s: State, a: Step, b: Step, c: Step, d: Step)
    ensures After(limits, s, [a, b, c, d]) == Apply(limits, Apply(limits, Apply(limits, Apply(limits, s, a), b), c), d)
  {
    assert [a, b, c, d] == [a] + [b, c, d];
    AfterFirst(limits, s, a, [b, c, d]);
    AfterThree(limits, Apply(limits, s, a), b, c, d);
  }

  // ---- what the history says ----

  /** When the store last accepted an enrollment, heartbeat or report of the node. */
  function LastContact(h: History, node: NodeId): Option<Time> {
    match h
    case Begin => None
    case Then(_, Enrolled(n, _, _, at, _)) => if n == node then Some(at) else LastContact(h.before, node)
    case Then(_, Beat(n, _, at)) => if n == node then Some(at) else LastContact(h.before, node)
    case Then(_, Graded(n, _, at)) => if n == node then Some(at) else LastContact(h.before, node)
    case Then(before, _) => LastContact(before, node)
  }

  /** The clock reading behind the last heartbeat time stored for the node. */
  function LastStamp(h: History, node: NodeId): Option<Time> {
    match h
    case Begin => None
    case Then(_, Enrolled(n, _, stamp, _, _)) => if n == node then Some(stamp) else LastStamp(h.before, node)
    case Then(_, Beat(n, stamp, _)) => if n == node then Some(stamp) else LastStamp(h.before, node)
    case Then(before, _) => LastStamp(before, node)
  }

  /** A finished evaluation: the report, the policy that opened it and the policies its items met. */
  datatype Evaluation = Evaluation(report: Report, start: Policy, seen: seq<Policy>)

  /** The last evaluation of the node since it enrolled. */
  function LastVerdict(h: History, node: NodeId): Option<Evaluation> {
    match h
    case Begin => None
    case Then(_, Enrolled(n, _, _, _, _)) => if n == node then None else LastVerdict(h.before, node)
    case Then(_, Judged(n, report, start, seen)) =>
      if n == node then Some(Evaluation(report, start, seen)) else LastVerdict(h.before, node)
    case Then(before, _) => LastVerdict(before, node)
  }

  /** When the last completed monitor pass had listed the nodes. */
  function LastPass(h: History): Option<Time> {
    match h
    case Begin => None
    case Then(_, PassDone(at)) => Some(at)
    case Then(before, _) => LastPass(before)
  }

  /** Who wrote a status. */
  datatype Writer = ByEnrollment | ByHeartbeat | ByReport(status: NodeStatus) | ByMonitor(status: NodeStatus)

  function Wrote(w: Writer): NodeStatus {
    match w
    case ByEnrollment => Online
    case ByHeartbeat => Online
    case ByReport(status) => status
    case ByMonitor(status) => status
  }

  /** Who last wrote the node's status. */
  function LastWriter(h: History, node: NodeId): Option<Writer> {
    match h
    case Begin => None
    case Then(_, Enrolled(n, _, _, _, _)) => if n == node then Some(ByEnrollment) else LastWriter(h.before, node)
    case Then(_, Beat(n, _, _)) => if n == node then Some(ByHeartbeat) else LastWriter(h.before, node)
    case Then(_, Graded(n, status, _)) => if n == node then Some(ByReport(status)) else LastWriter(h.before, node)
    case Then(_, Demoted(n, status)) => if n == node then Some(ByMonitor(status)) else LastWriter(h.before, node)
    case Then(before, _) => LastWriter(before, node)
  }

  /** The status that the node's last report since its enrollment earned. */
  function LastGrade(h: History, node: NodeId): Option<NodeStatus> {
    match h
    case Begin => None
    case Then(_, Enrolled(n, _, _, _, _)) => if n == node then None else LastGrade(h.before, node)
    case Then(_, Graded(n, status, _)) => if n == node then Some(status) else LastGrade(h.before, node)
    case Then(before, _) => LastGrade(before, node)
  }

  // ---- the board: what invariants need to know of each node ----

  datatype View = View(
    lastHeartbeat: Time,
    status: NodeStatus,
    compliance: ComplianceStatus,
    contact: Option<Time>,
    stamp: Option<Time>,
    verdict: Option<Evaluation>,
    writer: Option<Writer>)

  function ViewOf(row: Node, h: History, id: NodeId): View {
    View(row.lastHeartbeat, row.status, row.compliance,
         LastContact(h, id), LastStamp(h, id), LastVerdict(h, id), LastWriter(h, id))
  }

  function BoardOf(nodes: map<NodeId, Node>, h: History): map<NodeId, View> {
    map id | id in nodes :: ViewOf(nodes[id], h, id)
  }

  function Board(s: State): map<NodeId, View> {
    BoardOf(s.db.nodes, s.history)
  }

  datatype Effect =
    | Nothing
    | Insert(node: NodeId, row: Node)
    | Heartbeat(node: NodeId, stamp: Time)
    | Regrade(node: NodeId, status: NodeStatus)
    | Rejudge(node: NodeId, evaluation: Evaluation, compliant: bool)
    | Demote(node: NodeId, status: NodeStatus)
    | Remove(node: NodeId)

  function ApplyEffect(b: map<NodeId, View>, e: Effect, now: Time): map<NodeId, View> {
    match e
    case Nothing => b
    case Insert(n, row) =>
      b[n := View(Stored(row.lastHeartbeat), row.status, Unknown, Some(now), Some(row.lastHeartbeat), None, Some(ByEnrollment))]
    case Remove(n) => b - {n}
    case _ =>
      if e.node !in b then b else
        var v := b[e.node];
        b[e.node := match e
                    case Heartbeat(_, stamp) =>
                      v.(lastHeartbeat := Stored(stamp), status := Online, contact := Some(now), stamp := Some(stamp),
                         writer := Some(ByHeartbeat))
                    case Regrade(_, status) => v.(status := status, contact := Some(now), writer := Some(ByReport(status)))
                    case Rejudge(_, evaluation, compliant) =>
                      v.(compliance := if compliant then Compliant else NonCompliant, verdict := Some(evaluation))
                    case Demote(_, status) => v.(status := status, writer := Some(ByMonitor(status)))
                    case _ => v]
  }

  function ThreadEffect(s: State, t: Thread): Effect {
    match t
    case EnrollAdmitted(_, node, row, _) => if CanInsertNode(s.db, node, row) then Insert(node, row) else Nothing
    case Beating(node, stamp) => Heartbeat(node, stamp)
    case ReportStamped(node, _, stamp) => Heartbeat(node, stamp)
    case ReportBeaten(node, report) => Regrade(node, Grade(report))
    case ReportLooking(node, report, start, seen, compliant) =>
      if |seen| < |Items(report)| then Nothing else Rejudge(node, Evaluation(report, start, seen), compliant)
    case _ => Nothing
  }

  function StepEffect(c: Limits, s: State, step: Step): Effect {
    match step
    case DeleteNode(node) => Remove(node)
    case Advance(th, _, _) => if th in s.threads then ThreadEffect(s, s.threads[th]) else Nothing
    case ScanStep =>
      if s.scan.Writing? && s.scan.todo != [] then
        match NewStatus(c, s.scan.todo[0].1, s.scan.now)
        case Some(status) => Demote(s.scan.todo[0].0, status)
        case None => Nothing
      else Nothing
    case _ => Nothing
  }

  lemma BoardInsert(nodes: map<NodeId, Node>, h: History, n: NodeId, row: Node, token: TokenId, now: Time,
                    admission: Admission)
    ensures BoardOf(nodes[n := StoredRow(row)], Then(h, Enrolled(n, token, row.lastHeartbeat, now, admission)))
         == ApplyEffect(BoardOf(nodes, h), Insert(n, row), now)
  {
  }

  lemma BoardHeartbeat(nodes: map<NodeId, Node>, h: History, n: NodeId, stamp: Time, now: Time)
    requires n in nodes
    ensures BoardOf(nodes[n := nodes[n].(lastHeartbeat := Stored(stamp), status := Online)], Then(h, Beat(n, stamp, now)))
         == ApplyEffect(BoardOf(nodes, h), Heartbeat(n, stamp), now)
  {
  }

  lemma BoardRegrade(nodes: map<NodeId, Node>, h: History, n: NodeId, status: NodeStatus, now: Time)
    requires n in nodes
    ensures BoardOf(nodes[n := nodes[n].(status := status)], Then(h, Graded(n, status, now)))
         == ApplyEffect(BoardOf(nodes, h), Regrade(n, status), now)
  {
  }

  lemma BoardRejudge(nodes: map<NodeId, Node>, h: History, n: NodeId, e: Evaluation, compliant: bool, now: Time)
    requires n in nodes
    ensures BoardOf(nodes[n := nodes[n].(compliance := if compliant then Compliant else NonCompliant)],
                    Then(h, Judged(n, e.report, e.start, e.seen)))
         == ApplyEffect(BoardOf(nodes, h), Rejudge(n, e, compliant), now)
  {
  }

  lemma BoardDemote(nodes: map<NodeId, Node>, h: History, n: NodeId, status: NodeStatus, now: Time)
    requires n in nodes
    ensures BoardOf(nodes[n := nodes[n].(status := status)], Then(h, Demoted(n, status)))
         == ApplyEffect(BoardOf(nodes, h), Demote(n, status), now)
  {
  }

  /** Events about tokens and passes leave the board alone. */
  lemma BoardOther(nodes: map<NodeId, Node>, h: History, e: Event)
    requires e.Issued? || e.UseCounted? || e.UseLost? || e.PassDone?
    ensures BoardOf(nodes, Then(h, e)) == BoardOf(nodes, h)
  {
  }

  lemma ThreadBoard(s: State, t: Thread)
    ensures BoardOf(ThreadWrite(s.db, t).nodes, ThreadTrace(s.db, t, s.clock, s.history))
         == ApplyEffect(Board(s), ThreadEffect(s, t), s.clock)
  {
    match t
    case EnrollAdmitted(token, node, row, admission) => BoardInsert(s.db.nodes, s.history, node, row, token, s.clock, admission);
    case EnrollCreated(token) => BoardOther(s.db.nodes, s.history, UseCounted(token));
    case Beating(node, stamp) => if node in s.db.nodes { BoardHeartbeat(s.db.nodes, s.history, node, stamp, s.clock); }
    case ReportSaved(node, report) => BoardCounts(s.db, s.history, node, report);
    case ReportStamped(node, _, stamp) => if node in s.db.nodes { BoardHeartbeat(s.db.nodes, s.history, node, stamp, s.clock); }
    case ReportBeaten(node, report) =>
      if node in s.db.nodes { BoardRegrade(s.db.nodes, s.history, node, Grade(report), s.clock); }
    case ReportLooking(node, report, start, seen, compliant) =>
      if node in s.db.nodes { BoardRejudge(s.db.nodes, s.history, node, Evaluation(report, start, seen), compliant, s.clock); }
    case _ =>
  }

  lemma BoardCounts(db: Tables, h: History, node: NodeId, report: Report)
    ensures BoardOf(SetCounts(db, node, report.passed, report.failed, report.warned).nodes, h) == BoardOf(db.nodes, h)
  {
  }

  lemma ScanBoard(c: Limits, s: State, id: NodeId, row: Node, now: Time)
    ensures BoardOf(ScanWrite(c, s.db, id, row, now).nodes, ScanTrace(c, s.db, id, row, now, s.history))
         == ApplyEffect(Board(s), match NewStatus(c, row, now) case Some(status) => Demote(id, status) case None => Nothing, s.clock)
  {
    match NewStatus(c, row, now)
    case Some(status) => if id in s.db.nodes { BoardDemote(s.db.nodes, s.history, id, status, s.clock); }
    case None =>
  }

  lemma AdvanceBoard(c: Limits, s: State, th: nat, newId: NodeId, key: Hash)
    ensures Board(Apply(c, s, Advance(th, newId, key))) == ApplyEffect(Board(s), StepEffect(c, s, Advance(th, newId, key)), s.clock)
  {
    if th in s.threads {
      ThreadBoard(s, s.threads[th]);
    }
  }

  lemma {:induction false} StepBoard(c: Limits, s: State, step: Step)
    ensures Board(Apply(c, s, step)) == ApplyEffect(Board(s), StepEffect(c, s, step), s.clock)
  {
    match step
    case CreateToken(id, hash, role, region, uses, expiresIn) =>
      BoardOther(s.db.nodes, s.history, Issued(id, StoredToken(NewToken(hash, role, region, uses, expiresIn, s.clock))));
    case Advance(th, newId, key) => AdvanceBoard(c, s, th, newId, key);
    case Abandon(th) =>
      if th in s.threads && s.threads[th].EnrollCreated? { BoardOther(s.db.nodes, s.history, UseLost(s.threads[th].token)); }
    case ScanStep =>
      if s.scan.Writing? {
        if s.scan.todo == [] {
          BoardOther(s.db.nodes, s.history, PassDone(s.scan.at));
        } else {
          ScanBoard(c, s, s.scan.todo[0].0, s.scan.todo[0].1, s.scan.now);
        }
      }
    case _ =>
  }
}
