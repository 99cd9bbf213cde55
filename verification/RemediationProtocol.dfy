/** Remediation over a lossy link: the controller's request table (internal/dashboard/fleet_handler.go,
    pkg/fleet/sqlite.go) and one polling loop per node (cmd/agent/main.go), as a transition system. A step
    whose guard fails changes nothing; the history is never read by a step. */
module RemediationProtocol {
  import opened FleetTypes
  import opened FleetStore

  /** A polling loop between two ticks, or with the polled requests still to handle; `ran` says that the
      first of them was executed and its result is about to be posted. */
  datatype Loop = Idle | Working(todo: seq<RequestId>, ran: bool)

  /** What becomes of a posted result. The loop goes on to the next request whatever happens. */
  datatype Fate = Answered | AnswerLost | PostLost | Delayed

  /** A post the client gave up on that is still on its way. */
  datatype Letter = Letter(node: NodeId, request: RequestId, result: string)

  /** What an administrator asks for. */
  datatype Wish = Wish(actions: seq<string>, dryRun: bool)

  datatype Event =
    | Asked(request: RequestId, node: NodeId, wish: Wish)
    | Ran(node: NodeId, request: RequestId)
    | Recorded(request: RequestId)
    | Removed(node: NodeId)

  datatype History = Begin | Then(before: History, event: Event)

  datatype State = State(
    db: Tables,
    loops: map<NodeId, Loop>,
    late: multiset<Letter>,
    issued: set<RequestId>,
    history: History)

  datatype Step =
    | Enroll(node: NodeId, row: Node)
    | DeleteNode(node: NodeId)
    | Ask(id: RequestId, node: NodeId, actions: seq<string>, dryRun: bool, at: Time)
    | Poll(node: NodeId, order: seq<RequestId>, lost: bool)
    | Execute(node: NodeId)
    | Post(node: NodeId, fate: Fate, result: string, at: Time)
    | Arrive(letter: Letter, at: Time)
    | Restart(node: NodeId)

  /** Whether the link may deliver a post after the client gave up on it. */
  datatype Link = Link(late: bool)

  const START := State(EMPTY, map[], multiset{}, {}, Begin)

  function LoopOf(s: State, node: NodeId): Loop {
    if node in s.loops then s.loops[node] else Idle
  }

  /** The loop after it is done with its first request. */
  function Onward(todo: seq<RequestId>): Loop
    requires todo != []
  {
    if |todo| == 1 then Idle else Working(todo[1..], false)
  }

  /** The request is the node's own and the node still exists, so that its result is accepted. */
  predicate Accepts(db: Tables, node: NodeId, r: RequestId) {
    node in db.nodes && r in db.requests && db.requests[r].node == node
  }

  /** The controller handles a posted result. */
  function Receive(s: State, node: NodeId, r: RequestId, result: string, at: Time): State {
    if Accepts(s.db, node, r)
    then s.(db := CompleteRequest(s.db, r, result, at), history := Then(s.history, Recorded(r)))
    else s
  }

  ghost function Apply(c: Link, s: State, step: Step): State {
    match step
    case Enroll(node, row) => s.(db := InsertNode(s.db, node, row))
    case DeleteNode(node) => s.(db := RemoveNode(s.db, node), history := Then(s.history, Removed(node)))
    case Ask(id, node, actions, dryRun, at) =>
      if node in s.db.nodes && actions != [] && id !in s.issued
      then s.(db := InsertRequest(s.db, id, Request(node, actions, dryRun, Pending, at, None, "")),
              issued := s.issued + {id}, history := Then(s.history, Asked(id, node, Wish(actions, dryRun))))
      else s
    case Poll(node, order, lost) =>
      if node in s.db.nodes && LoopOf(s, node).Idle? && IsPendingList(s.db, node, order) && !lost && order != []
      then s.(loops := s.loops[node := Working(order, false)])
      else s
    case Execute(node) =>
      if LoopOf(s, node).Working? && LoopOf(s, node).todo != [] && !LoopOf(s, node).ran
      then s.(loops := s.loops[node := LoopOf(s, node).(ran := true)],
              history := Then(s.history, Ran(node, LoopOf(s, node).todo[0])))
      else s
    case Post(node, fate, result, at) =>
      if LoopOf(s, node).Working? && LoopOf(s, node).todo != [] && LoopOf(s, node).ran then
        var todo := LoopOf(s, node).todo;
        var moved := s.(loops := s.loops[node := Onward(todo)]);
        match fate
        case Answered => Receive(moved, node, todo[0], result, at)
        case AnswerLost => Receive(moved, node, todo[0], result, at)
        case PostLost => moved
        case Delayed => if c.late then moved.(late := s.late + multiset{Letter(node, todo[0], result)}) else moved
      else s
    case Arrive(letter, at) =>
      if letter in s.late
      then Receive(s.(late := s.late - multiset{letter}), letter.node, letter.request, letter.result, at)
      else s
    case Restart(node) => s.(loops := s.loops - {node})
  }

  ghost function After(c: Link, s0: State, steps: seq<Step>): State {
    if steps == [] then s0 else Apply(c, After(c, s0, steps[..|steps| - 1]), steps[|steps| - 1])
  }

  lemma {:induction false} AfterSplit(c: Link, s: State, first: seq<Step>, second: seq<Step>)
    ensures After(c, s, first + second) == After(c, After(c, s, first), second)
    decreases |second|
  {
    if second == [] {
      assert first + second == first;
    } else {
      assert (first + second)[..|first + second| - 1] == first + second[..|second| - 1];
      AfterSplit(c, s, first, second[..|second| - 1]);
    }
  }

  // ---- what the history says ----

  /** The node was asked, and since then neither was a result recorded nor the node deleted. */
  predicate Outstanding(h: History, node: NodeId, r: RequestId) {
    match h
    case Begin => false
    case Then(before, Asked(q, n, _)) => if q == r then n == node else Outstanding(before, node, r)
    case Then(before, Ran(_, _)) => Outstanding(before, node, r)
    case Then(before, Recorded(q)) => q != r && Outstanding(before, node, r)
    case Then(before, Removed(n)) => n != node && Outstanding(before, node, r)
  }

  predicate Happened(h: History, e: Event) {
    h.Then? && (h.event == e || Happened(h.before, e))
  }

  predicate RanSomewhere(h: History, r: RequestId) {
    h.Then? && ((h.event.Ran? && h.event.request == r) || RanSomewhere(h.before, r))
  }

  /** Every recording of the request has an execution of it before. */
  predicate RecordedAfterRunning(h: History, r: RequestId) {
    h.Then? ==> (h.event == Recorded(r) ==> RanSomewhere(h.before, r)) && RecordedAfterRunning(h.before, r)
  }

  /** No execution of the request comes after a recording of it. */
  predicate NeverRunAfterRecording(h: History, r: RequestId) {
    h.Then? ==> (h.event.Ran? && h.event.request == r ==> !Happened(h.before, Recorded(r))) && NeverRunAfterRecording(h.before, r)
  }

  // ---- pending exactly while outstanding ----

  lemma IssuedStep(c: Link, s: State, step: Step)
    requires s.db.requests.Keys <= s.issued
    ensures Apply(c, s, step).db.requests.Keys <= Apply(c, s, step).issued
  {
    match step
    case Post(n, _, result, at) =>
      assert forall q: State, r: RequestId :: Receive(q, n, r, result, at).db.requests.Keys == q.db.requests.Keys;
    case Arrive(l, at) =>
      assert forall q: State :: Receive(q, l.node, l.request, l.result, at).db.requests.Keys == q.db.requests.Keys;
    case _ =>
  }

  lemma {:induction false} RequestsAreIssued(c: Link, steps: seq<Step>)
    ensures After(c, START, steps).db.requests.Keys <= After(c, START, steps).issued
  {
    if steps == [] {
    } else {
      RequestsAreIssued(c, steps[..|steps| - 1]);
      IssuedStep(c, After(c, START, steps[..|steps| - 1]), steps[|steps| - 1]);
    }
  }

  ghost predicate Agrees(db: Tables, h: History, node: NodeId, r: RequestId) {
    IsPending(db, node, r) <==> Outstanding(h, node, r)
  }

  lemma ReceiveAgrees(s: State, n: NodeId, q: RequestId, result: string, at: Time, node: NodeId, r: RequestId)
    requires Agrees(s.db, s.history, node, r)
    ensures Agrees(Receive(s, n, q, result, at).db, Receive(s, n, q, result, at).history, node, r)
  {
  }

  lemma AgreesStep(c: Link, s: State, step: Step, node: NodeId, r: RequestId)
    requires Agrees(s.db, s.history, node, r) && s.db.requests.Keys <= s.issued
    ensures Agrees(Apply(c, s, step).db, Apply(c, s, step).history, node, r)
  {
    match step
    case Post(n, _, result, at) =>
      if LoopOf(s, n).Working? && LoopOf(s, n).todo != [] {
        var todo := LoopOf(s, n).todo;
        ReceiveAgrees(s.(loops := s.loops[n := Onward(todo)]), n, todo[0], result, at, node, r);
      }
    case Arrive(l, at) => ReceiveAgrees(s.(late := s.late - multiset{l}), l.node, l.request, l.result, at, node, r);
    case _ =>
  }

  /** The table agrees with the history about one request. */
  lemma {:induction false} PendingIsOutstanding(c: Link, steps: seq<Step>, node: NodeId, r: RequestId)
    ensures IsPending(After(c, START, steps).db, node, r) <==> Outstanding(After(c, START, steps).history, node, r)
  {
    if steps == [] {
    } else {
      var init := steps[..|steps| - 1];
      RequestsAreIssued(c, init);
      PendingIsOutstanding(c, init, node, r);
      AgreesStep(c, After(c, START, init), steps[|steps| - 1], node, r);
    }
  }

  /** Every poll that is answered hands its own node the outstanding requests, all of them and no others. */
  lemma PollReturnsOutstanding(c: Link, steps: seq<Step>, node: NodeId, order: seq<RequestId>, r: RequestId)
    requires var s := After(c, START, steps); node in s.db.nodes && LoopOf(s, node) == Idle && IsPendingList(s.db, node, order)
    ensures var polled := LoopOf(Apply(c, After(c, START, steps), Poll(node, order, false)), node);
      (polled.Working? && r in polled.todo) <==> Outstanding(After(c, START, steps).history, node, r)
  {
    PendingIsOutstanding(c, steps, node, r);
    assert r in order <==> IsPending(After(c, START, steps).db, node, r);
  }

  lemma StaysSettled(c: Link, s: State, step: Step, node: NodeId, r: RequestId)
    requires r in s.issued && !IsPending(s.db, node, r)
    ensures r in Apply(c, s, step).issued && !IsPending(Apply(c, s, step).db, node, r)
  {
  }

  /** A request that was made and is no longer pending is never pending again. */
  lemma {:induction false} NeverPendingAgain(c: Link, first: seq<Step>, second: seq<Step>, node: NodeId, r: RequestId)
    requires r in After(c, START, first).issued && !IsPending(After(c, START, first).db, node, r)
    ensures r in After(c, START, first + second).issued && !IsPending(After(c, START, first + second).db, node, r)
    decreases |second|
  {
    if second == [] {
      assert first + second == first;
    } else {
      var init := second[..|second| - 1];
      assert (first + second)[..|first + second| - 1] == first + init;
      NeverPendingAgain(c, first, init, node, r);
      StaysSettled(c, After(c, START, first + init), second[|second| - 1], node, r);
    }
  }

  // ---- requests are as asked ----

  /** Which node was asked for what under this id; ids are drawn once. */
  function AskedFor(h: History, r: RequestId): Option<(NodeId, Wish)> {
    match h
    case Begin => None
    case Then(before, Asked(q, n, wish)) => if q == r then Some((n, wish)) else AskedFor(before, r)
    case Then(before, _) => AskedFor(before, r)
  }

  function Todo(l: Loop): seq<RequestId> {
    match l case Idle => [] case Working(todo, _) => todo
  }

  /** Rows hold what was asked, and every loop works on what its own node was asked. */
  ghost predicate AsAsked(s: State) {
    && (forall r <- s.db.requests ::
          AskedFor(s.history, r) == Some((s.db.requests[r].node, Wish(s.db.requests[r].actions, s.db.requests[r].dryRun))))
    && (forall r: RequestId | r !in s.issued :: AskedFor(s.history, r) == None)
    && (forall n <- s.loops :: forall q <- Todo(s.loops[n]) :: AskedFor(s.history, q).Some? && AskedFor(s.history, q).value.0 == n)
  }

  lemma ReceiveAsAsked(s: State, n: NodeId, q: RequestId, result: string, at: Time)
    requires AsAsked(s)
    ensures AsAsked(Receive(s, n, q, result, at))
  {
  }

  lemma OnwardAsAsked(s: State, n: NodeId)
    requires AsAsked(s) && LoopOf(s, n).Working? && LoopOf(s, n).todo != []
    ensures AsAsked(s.(loops := s.loops[n := Onward(LoopOf(s, n).todo)]))
  {
    assert forall q <- Todo(Onward(LoopOf(s, n).todo)) :: q in LoopOf(s, n).todo;
  }

  lemma AsAskedStep(c: Link, s: State, step: Step)
    requires AsAsked(s)
    ensures AsAsked(Apply(c, s, step))
  {
    match step
    case Poll(n, order, _) => assert IsPendingList(s.db, n, order) ==> forall q <- order :: IsPending(s.db, n, q);
    case Post(n, _, result, at) =>
      if LoopOf(s, n).Working? && LoopOf(s, n).todo != [] && LoopOf(s, n).ran {
        OnwardAsAsked(s, n);
        ReceiveAsAsked(s.(loops := s.loops[n := Onward(LoopOf(s, n).todo)]), n, LoopOf(s, n).todo[0], result, at);
      }
    case Arrive(l, at) => ReceiveAsAsked(s.(late := s.late - multiset{l}), l.node, l.request, l.result, at);
    case _ =>
  }

  lemma {:induction false} AsAskedAlways(c: Link, steps: seq<Step>)
    ensures AsAsked(After(c, START, steps))
  {
    if steps == [] {
    } else {
      AsAskedAlways(c, steps[..|steps| - 1]);
      AsAskedStep(c, After(c, START, steps[..|steps| - 1]), steps[|steps| - 1]);
    }
  }

  /** In every run a row still in the table has the node, the actions and the dry-run flag that were asked for, so
      what an answered poll hands over is what was asked. */
  lemma {:induction false} RowIsAsAsked(c: Link, steps: seq<Step>, r: RequestId)
    requires r in After(c, START, steps).db.requests
    ensures var s := After(c, START, steps); var row := s.db.requests[r];
      match AskedFor(s.history, r)
      case None => false
      case Some((node, wish)) => row.node == node && row.actions == wish.actions && row.dryRun == wish.dryRun
  {
    AsAskedAlways(c, steps);
  }

  ghost predicate OwnRequest(h: History, node: NodeId, r: RequestId) {
    AskedFor(h, r).Some? && AskedFor(h, r).value.0 == node
  }

  lemma RunsOwn(c: Link, s: State, step: Step, node: NodeId, r: RequestId)
    requires AsAsked(s) && (Happened(s.history, Ran(node, r)) ==> OwnRequest(s.history, node, r))
    requires Happened(Apply(c, s, step).history, Ran(node, r))
    ensures OwnRequest(Apply(c, s, step).history, node, r)
  {
    if Happened(s.history, Ran(node, r)) {
      AskedStays(c, s, step, r);
    } else {
      assert step == Execute(node);
      assert r in Todo(s.loops[node]);
    }
  }

  /** In every run a node only executes what itself was asked for. */
  lemma {:induction false} RanWasAsked(c: Link, steps: seq<Step>, node: NodeId, r: RequestId)
    requires Happened(After(c, START, steps).history, Ran(node, r))
    ensures OwnRequest(After(c, START, steps).history, node, r)
  {
    if steps == [] {
    } else {
      var init := steps[..|steps| - 1];
      var s := After(c, START, init);
      AsAskedAlways(c, init);
      if Happened(s.history, Ran(node, r)) {
        RanWasAsked(c, init, node, r);
      }
      RunsOwn(c, s, steps[|steps| - 1], node, r);
    }
  }

  lemma AskedStays(c: Link, s: State, step: Step, r: RequestId)
    requires AsAsked(s) && AskedFor(s.history, r).Some?
    ensures AskedFor(Apply(c, s, step).history, r) == AskedFor(s.history, r)
  {
  }

  // ---- completed only after an execution ----

  lemma {:induction false} RanByOne(h: History, n: NodeId, r: RequestId)
    requires Happened(h, Ran(n, r))
    ensures RanSomewhere(h, r)
  {
    if h.event != Ran(n, r) {
      RanByOne(h.before, n, r);
    }
  }

  /** The executed request of a loop, letters under way and completed rows all come from an execution by
      the node they belong to. */
  ghost predicate Executed(s: State, r: RequestId) {
    && (forall n <- s.loops :: s.loops[n].Working? && s.loops[n].ran && s.loops[n].todo != [] && s.loops[n].todo[0] == r ==> Happened(s.history, Ran(n, r)))
    && (forall l <- s.late :: l.request == r ==> Happened(s.history, Ran(l.node, r)))
    && (r in s.db.requests && s.db.requests[r].status == Completed ==> Happened(s.history, Ran(s.db.requests[r].node, r)))
    && RecordedAfterRunning(s.history, r)
  }

  lemma ReceiveExecuted(s: State, n: NodeId, q: RequestId, result: string, at: Time, r: RequestId)
    requires Executed(s, r) && (q == r ==> Happened(s.history, Ran(n, r)))
    ensures Executed(Receive(s, n, q, result, at), r)
  {
    if q == r {
      RanByOne(s.history, n, r);
    }
  }

  lemma MovedExecuted(s: State, n: NodeId, r: RequestId)
    requires Executed(s, r) && LoopOf(s, n).Working? && LoopOf(s, n).todo != []
    ensures Executed(s.(loops := s.loops[n := Onward(LoopOf(s, n).todo)]), r)
  {
  }

  lemma PostExecuted(c: Link, s: State, n: NodeId, fate: Fate, result: string, at: Time, r: RequestId)
    requires Executed(s, r)
    ensures Executed(Apply(c, s, Post(n, fate, result, at)), r)
  {
    if LoopOf(s, n).Working? && LoopOf(s, n).todo != [] && LoopOf(s, n).ran {
      MovedExecuted(s, n, r);
      ReceiveExecuted(s.(loops := s.loops[n := Onward(LoopOf(s, n).todo)]), n, LoopOf(s, n).todo[0], result, at, r);
    }
  }

  lemma ExecutedStep(c: Link, s: State, step: Step, r: RequestId)
    requires Executed(s, r)
    ensures Executed(Apply(c, s, step), r)
  {
    match step
    case Post(n, fate, result, at) => PostExecuted(c, s, n, fate, result, at, r);
    case Arrive(l, at) =>
      if l in s.late {
        ReceiveExecuted(s.(late := s.late - multiset{l}), l.node, l.request, l.result, at, r);
      }
    case _ =>
  }

  /** In every run, a completed request was executed before its result was recorded. */
  lemma {:induction false} CompletedWasExecuted(c: Link, steps: seq<Step>, r: RequestId)
    ensures Executed(After(c, START, steps), r)
  {
    if steps == [] {
    } else {
      CompletedWasExecuted(c, steps[..|steps| - 1], r);
      ExecutedStep(c, After(c, START, steps[..|steps| - 1]), steps[|steps| - 1], r);
    }
  }

  // ---- no execution after the recording ----

  /** The polled requests the loop has not executed yet. */
  function Unrun(l: Loop): seq<RequestId> {
    if l.Idle? then [] else if l.ran && l.todo != [] then l.todo[1..] else l.todo
  }

  /** A late letter reaches the controller while the loop holds the same request unexecuted. */
  ghost predicate Overtakes(s: State, step: Step, r: RequestId) {
    step.Arrive? && step.letter in s.late && step.letter.request == r && r in Unrun(LoopOf(s, step.letter.node))
  }

  ghost predicate NeverOvertaken(c: Link, steps: seq<Step>, r: RequestId) {
    steps != [] ==>
      var init := steps[..|steps| - 1];
      NeverOvertaken(c, init, r) && !Overtakes(After(c, START, init), steps[|steps| - 1], r)
  }

  /** What a loop holds: distinct requests, each made for this very node if it is still there. */
  ghost predicate Queue(s: State, node: NodeId) {
    LoopQueue(LoopOf(s, node), s.db.requests, s.issued, node)
  }

  ghost predicate LoopQueue(l: Loop, requests: map<RequestId, Request>, issued: set<RequestId>, node: NodeId) {
    l.Working? ==>
      && l.todo != []
      && (forall i, j :: 0 <= i < j < |l.todo| ==> l.todo[i] != l.todo[j])
      && (forall q <- l.todo :: q in issued && (q in requests ==> requests[q].node == node))
  }

  lemma ReceiveOwners(s: State, n: NodeId, r: RequestId, result: string, at: Time)
    ensures var t := Receive(s, n, r, result, at);
      && t.loops == s.loops && t.issued == s.issued && t.db.requests.Keys == s.db.requests.Keys
      && forall q <- s.db.requests :: t.db.requests[q].node == s.db.requests[q].node
  {
  }

  lemma PostQueue(c: Link, s: State, n: NodeId, fate: Fate, result: string, at: Time, node: NodeId)
    requires Queue(s, node)
    ensures Queue(Apply(c, s, Post(n, fate, result, at)), node)
  {
    if LoopOf(s, n).Working? && LoopOf(s, n).todo != [] {
      var todo := LoopOf(s, n).todo;
      ReceiveOwners(s.(loops := s.loops[n := Onward(todo)]), n, todo[0], result, at);
    }
  }

  lemma {:induction false} QueueStep(c: Link, s: State, step: Step, node: NodeId)
    requires Queue(s, node) && s.db.requests.Keys <= s.issued
    ensures Queue(Apply(c, s, step), node)
  {
    match step
    case Post(n, fate, result, at) => PostQueue(c, s, n, fate, result, at, node);
    case Arrive(l, at) => ReceiveOwners(s.(late := s.late - multiset{l}), l.node, l.request, l.result, at);
    case _ =>
  }

  lemma {:induction false} QueueAlways(c: Link, steps: seq<Step>, node: NodeId)
    ensures Queue(After(c, START, steps), node)
  {
    if steps == [] {
    } else {
      QueueAlways(c, steps[..|steps| - 1], node);
      RequestsAreIssued(c, steps[..|steps| - 1]);
      QueueStep(c, After(c, START, steps[..|steps| - 1]), steps[|steps| - 1], node);
    }
  }

  /** Once recorded, the row is completed or gone. */
  ghost predicate Settled(s: State, r: RequestId) {
    Happened(s.history, Recorded(r)) ==> r in s.issued && (r in s.db.requests ==> s.db.requests[r].status == Completed)
  }

  lemma ReceiveSettled(s: State, n: NodeId, q: RequestId, result: string, at: Time, r: RequestId)
    requires Settled(s, r) && s.db.requests.Keys <= s.issued
    ensures Settled(Receive(s, n, q, result, at), r)
  {
  }

  lemma SettledStep(c: Link, s: State, step: Step, r: RequestId)
    requires Settled(s, r) && s.db.requests.Keys <= s.issued
    ensures Settled(Apply(c, s, step), r)
  {
    match step
    case Post(n, _, result, at) =>
      if LoopOf(s, n).Working? && LoopOf(s, n).todo != [] {
        var todo := LoopOf(s, n).todo;
        ReceiveSettled(s.(loops := s.loops[n := Onward(todo)]), n, todo[0], result, at, r);
      }
    case Arrive(l, at) => ReceiveSettled(s.(late := s.late - multiset{l}), l.node, l.request, l.result, at, r);
    case _ =>
  }

  lemma {:induction false} SettledAlways(c: Link, steps: seq<Step>, r: RequestId)
    ensures Settled(After(c, START, steps), r)
  {
    if steps == [] {
    } else {
      var init := steps[..|steps| - 1];
      SettledAlways(c, init, r);
      RequestsAreIssued(c, init);
      SettledStep(c, After(c, START, init), steps[|steps| - 1], r);
    }
  }

  /** Nothing recorded waits for execution. */
  ghost predicate Unrecorded(s: State, node: NodeId, r: RequestId) {
    r in Unrun(LoopOf(s, node)) ==> !Happened(s.history, Recorded(r))
  }

  lemma ReceiveUnrecorded(s: State, n: NodeId, q: RequestId, result: string, at: Time, node: NodeId, r: RequestId)
    requires Unrecorded(s, node, r) && Queue(s, node)
    requires !(n == node && q == r && r in Unrun(LoopOf(s, node)))
    ensures Unrecorded(Receive(s, n, q, result, at), node, r)
  {
  }

  lemma PostUnrecorded(c: Link, s: State, n: NodeId, fate: Fate, result: string, at: Time, node: NodeId, r: RequestId)
    requires Unrecorded(s, node, r) && Queue(s, node)
    ensures Unrecorded(Apply(c, s, Post(n, fate, result, at)), node, r)
  {
    if LoopOf(s, n).Working? && LoopOf(s, n).todo != [] && LoopOf(s, n).ran {
      var todo := LoopOf(s, n).todo;
      ReceiveUnrecorded(s.(loops := s.loops[n := Onward(todo)]), n, todo[0], result, at, node, r);
    }
  }

  lemma UnrecordedStep(c: Link, s: State, step: Step, node: NodeId, r: RequestId)
    requires Unrecorded(s, node, r) && Queue(s, node) && Settled(s, r) && !Overtakes(s, step, r)
    ensures Unrecorded(Apply(c, s, step), node, r)
  {
    match step
    case Post(n, fate, result, at) => PostUnrecorded(c, s, n, fate, result, at, node, r);
    case Arrive(l, at) =>
      if l in s.late {
        ReceiveUnrecorded(s.(late := s.late - multiset{l}), l.node, l.request, l.result, at, node, r);
      }
    case _ =>
  }

  lemma {:induction false} UnrecordedAlways(c: Link, steps: seq<Step>, node: NodeId, r: RequestId)
    requires NeverOvertaken(c, steps, r)
    ensures Unrecorded(After(c, START, steps), node, r)
  {
    if steps == [] {
    } else {
      var init := steps[..|steps| - 1];
      UnrecordedAlways(c, init, node, r);
      QueueAlways(c, init, node);
      SettledAlways(c, init, r);
      UnrecordedStep(c, After(c, START, init), steps[|steps| - 1], node, r);
    }
  }

  /** As long as no late letter overtakes the loop, nothing is executed after its result was recorded,
      whatever posts and answers are lost. */
  lemma {:induction false} NotRunAfterRecording(c: Link, steps: seq<Step>, r: RequestId)
    requires NeverOvertaken(c, steps, r)
    ensures NeverRunAfterRecording(After(c, START, steps).history, r)
  {
    if steps == [] {
    } else {
      var init := steps[..|steps| - 1];
      NotRunAfterRecording(c, init, r);
      var step := steps[|steps| - 1];
      if step.Execute? {
        UnrecordedAlways(c, init, step.node, r);
      }
    }
  }

  lemma {:induction false} NothingLate(c: Link, steps: seq<Step>, r: RequestId)
    requires !c.late
    ensures After(c, START, steps).late == multiset{} && NeverOvertaken(c, steps, r)
  {
    if steps == [] {
    } else {
      NothingLate(c, steps[..|steps| - 1], r);
    }
  }

  // ---- a late letter is enough to execute twice ----

  lemma AfterFirst(c: Link, s: State, step: Step, rest: seq<Step>)
    ensures After(c, s, [step] + rest) == After(c, Apply(c, s, step), rest)
  {
    AfterSplit(c, s, [step], rest);
    assert [step][..0] == [];
  }

  const ROW := Node("node", Server, "", 0, 0, 0, Online, 0, 0, 0, Unknown)

  /** One node that has been asked for one remediation. */
  const SETUP := [Enroll(0, ROW), Ask(0, 0, ["fix"], false, 0)]

  /** The first execution's result is delayed, and arrives when the loop has polled the request again. */
  const TWICE := [Poll(0, [0], false), Execute(0), Post(0, Delayed, "done", 0),
                  Poll(0, [0], false), Arrive(Letter(0, 0, "done"), 0), Execute(0)]

  lemma SetupState(c: Link)
    ensures var s := After(c, START, SETUP);
      && 0 in s.db.nodes && s.loops == map[] && s.late == multiset{} && s.history == Then(Begin, Asked(0, 0, Wish(["fix"], false)))
      && s.db.requests == map[0 := Request(0, ["fix"], false, Pending, 0, None, "")]
  {
    AfterFirst(c, START, SETUP[0], [SETUP[1]]);
    var enrolled := Apply(c, START, SETUP[0]);
    assert enrolled.db.nodes.Keys == {0};
    AfterFirst(c, enrolled, SETUP[1], []);
    assert SETUP == [SETUP[0]] + [SETUP[1]];
    assert [SETUP[1]] + [] == [SETUP[1]];
  }

  lemma PollsZero(c: Link, s: State)
    requires 0 in s.db.nodes && LoopOf(s, 0) == Idle && IsPendingList(s.db, 0, [0])
    ensures Apply(c, s, Poll(0, [0], false)) == s.(loops := s.loops[0 := Working([0], false)])
  {
  }

  lemma ExecutesZero(c: Link, s: State)
    requires LoopOf(s, 0) == Working([0], false)
    ensures Apply(c, s, Execute(0)) == s.(loops := s.loops[0 := Working([0], true)], history := Then(s.history, Ran(0, 0)))
  {
  }

  lemma PostsLate(c: Link, s: State)
    requires c.late && LoopOf(s, 0) == Working([0], true)
    ensures Apply(c, s, Post(0, Delayed, "done", 0))
         == s.(loops := s.loops[0 := Idle], late := s.late + multiset{Letter(0, 0, "done")})
  {
  }

  lemma ArrivesLate(c: Link, s: State)
    requires Letter(0, 0, "done") in s.late && Accepts(s.db, 0, 0)
    ensures var t := Apply(c, s, Arrive(Letter(0, 0, "done"), 0));
      t.loops == s.loops && t.history == Then(s.history, Recorded(0))
  {
  }

  lemma AfterThree(c: Link, s: State, x: Step, y: Step, z: Step)
    ensures After(c, s, [x, y, z]) == Apply(c, Apply(c, Apply(c, s, x), y), z)
  {
    AfterFirst(c, s, x, [y, z]);
    AfterFirst(c, Apply(c, s, x), y, [z]);
    AfterFirst(c, Apply(c, Apply(c, s, x), y), z, []);
    assert [x, y, z] == [x] + [y, z] && [y, z] == [y] + [z] && [z] == [z] + [];
  }

  /** Polled, executed, posted late: the request is still pending and the letter under way. */
  lemma FirstRound(c: Link, s: State)
    requires c.late && 0 in s.db.nodes && s.loops == map[] && s.late == multiset{} && IsPendingList(s.db, 0, [0])
    ensures var t := After(c, s, TWICE[..3]);
      && t.db == s.db && t.late == multiset{Letter(0, 0, "done")} && LoopOf(t, 0) == Idle
      && t.history == Then(s.history, Ran(0, 0))
  {
    AfterThree(c, s, TWICE[0], TWICE[1], TWICE[2]);
    assert TWICE[..3] == [TWICE[0], TWICE[1], TWICE[2]];
    PollsZero(c, s);
    var polled := s.(loops := s.loops[0 := Working([0], false)]);
    ExecutesZero(c, polled);
    PostsLate(c, polled.(loops := polled.loops[0 := Working([0], true)], history := Then(s.history, Ran(0, 0))));
  }

  lemma SecondRound(c: Link, s: State)
    requires 0 in s.db.nodes && LoopOf(s, 0) == Idle && Letter(0, 0, "done") in s.late && IsPendingList(s.db, 0, [0])
    requires 0 in s.db.requests && s.db.requests[0].node == 0
    ensures After(c, s, TWICE[3..]).history == Then(Then(s.history, Recorded(0)), Ran(0, 0))
  {
    AfterThree(c, s, TWICE[3], TWICE[4], TWICE[5]);
    assert TWICE[3..] == [TWICE[3], TWICE[4], TWICE[5]];
    PollsZero(c, s);
    var polled := s.(loops := s.loops[0 := Working([0], false)]);
    ArrivesLate(c, polled);
    ExecutesZero(c, Apply(c, polled, TWICE[4]));
  }

  lemma LateLetterRunsTwice(c: Link)
    requires c.late
    ensures !NeverRunAfterRecording(After(c, START, SETUP + TWICE).history, 0)
  {
    SetupState(c);
    var s := After(c, START, SETUP);
    assert IsPendingList(s.db, 0, [0]);
    AfterSplit(c, START, SETUP, TWICE);
    AfterSplit(c, s, TWICE[..3], TWICE[3..]);
    assert TWICE == TWICE[..3] + TWICE[3..];
    FirstRound(c, s);
    SecondRound(c, After(c, s, TWICE[..3]));
  }

  /** No run ever executes a request after its result was recorded exactly when the link drops the posts
      the client gave up on. */
  lemma RunsOnceIffNothingIsLate(c: Link)
    ensures (forall steps, r :: NeverRunAfterRecording(After(c, START, steps).history, r)) <==> !c.late
  {
    if c.late {
      LateLetterRunsTwice(c);
    } else {
      forall steps, r
        ensures NeverRunAfterRecording(After(c, START, steps).history, r)
      {
        NothingLate(c, steps, r);
        NotRunAfterRecording(c, steps, r);
      }
    }
  }

  // ---- one tick of the loop ----

  /** What happens to one polled request: the post's fate, the result text and the controller's clock. */
  datatype Job = Job(fate: Fate, result: string, at: Time)

  function Serve(node: NodeId, jobs: seq<Job>): seq<Step> {
    if jobs == [] then [] else
      var last := jobs[|jobs| - 1];
      Serve(node, jobs[..|jobs| - 1]) + [Execute(node), Post(node, last.fate, last.result, last.at)]
  }

  predicate Delivered(fate: Fate) {
    fate == Answered || fate == AnswerLost
  }

  /** The table after the first jobs. */
  function Recordings(db: Tables, node: NodeId, todo: seq<RequestId>, jobs: seq<Job>): Tables
    requires |jobs| <= |todo|
  {
    if jobs == [] then db else
      var last := jobs[|jobs| - 1];
      var sofar := Recordings(db, node, todo, jobs[..|jobs| - 1]);
      var r := todo[|jobs| - 1];
      if Delivered(last.fate) && Accepts(sofar, node, r) then CompleteRequest(sofar, r, last.result, last.at) else sofar
  }

  function Rest(todo: seq<RequestId>, done: nat): Loop
    requires done <= |todo|
  {
    if done == |todo| then Idle else Working(todo[done..], false)
  }

  lemma ServeOne(c: Link, s: State, node: NodeId, todo: seq<RequestId>, job: Job)
    requires todo != [] && LoopOf(s, node) == Working(todo, false)
    ensures var t := After(c, s, [Execute(node), Post(node, job.fate, job.result, job.at)]);
      && LoopOf(t, node) == Onward(todo)
      && t.db == if Delivered(job.fate) && Accepts(s.db, node, todo[0]) then CompleteRequest(s.db, todo[0], job.result, job.at) else s.db
  {
    var post := Post(node, job.fate, job.result, job.at);
    AfterFirst(c, s, Execute(node), [post]);
    AfterFirst(c, Apply(c, s, Execute(node)), post, []);
    assert [Execute(node), post] == [Execute(node)] + [post];
    assert [post] + [] == [post];
  }

  /** Serving the polled requests one after the other. */
  lemma {:induction false} Served(c: Link, s: State, node: NodeId, todo: seq<RequestId>, jobs: seq<Job>)
    requires todo != [] && LoopOf(s, node) == Working(todo, false) && |jobs| <= |todo|
    ensures var t := After(c, s, Serve(node, jobs));
      t.db == Recordings(s.db, node, todo, jobs) && LoopOf(t, node) == Rest(todo, |jobs|)
    decreases |jobs|
  {
    if jobs == [] {
      assert todo[0..] == todo;
    } else {
      var init := jobs[..|jobs| - 1];
      var last := jobs[|jobs| - 1];
      Served(c, s, node, todo, init);
      AfterSplit(c, s, Serve(node, init), [Execute(node), Post(node, last.fate, last.result, last.at)]);
      ServeOne(c, After(c, s, Serve(node, init)), node, todo[|init|..], last);
      assert todo[|init|..][1..] == todo[|jobs|..];
    }
  }

  /** A result of the request reached the controller. */
  ghost predicate Reported(todo: seq<RequestId>, jobs: seq<Job>, r: RequestId)
    requires |jobs| <= |todo|
  {
    exists i :: 0 <= i < |jobs| && todo[i] == r && Delivered(jobs[i].fate)
  }

  /** The row holds the result and the time of a delivered post. */
  ghost predicate ReportedAs(todo: seq<RequestId>, jobs: seq<Job>, r: RequestId, row: Request)
    requires |jobs| <= |todo|
  {
    exists i :: 0 <= i < |jobs| && todo[i] == r && Delivered(jobs[i].fate)
                && row.result == jobs[i].result && row.completedAt == Some(Stored(jobs[i].at))
  }

  lemma ReportedAsLonger(todo: seq<RequestId>, jobs: seq<Job>, r: RequestId, row: Request)
    requires 0 < |jobs| <= |todo| && ReportedAs(todo, jobs[..|jobs| - 1], r, row)
    ensures ReportedAs(todo, jobs, r, row)
  {
    var init := jobs[..|jobs| - 1];
    var i :| 0 <= i < |init| && todo[i] == r && Delivered(init[i].fate)
             && row.result == init[i].result && row.completedAt == Some(Stored(init[i].at));
    assert jobs[i] == init[i];
  }

  lemma ReportedLast(todo: seq<RequestId>, jobs: seq<Job>, r: RequestId)
    requires 0 < |jobs| <= |todo|
    ensures Reported(todo, jobs, r)
       <==> Reported(todo, jobs[..|jobs| - 1], r) || (todo[|jobs| - 1] == r && Delivered(jobs[|jobs| - 1].fate))
  {
    var init := jobs[..|jobs| - 1];
    if i :| 0 <= i < |jobs| && todo[i] == r && Delivered(jobs[i].fate) {
      assert i < |init| ==> init[i] == jobs[i];
    }
    if i :| 0 <= i < |init| && todo[i] == r && Delivered(init[i].fate) {
      assert init[i] == jobs[i];
    }
  }

  /** Exactly the delivered results are recorded; everything else about the tables stays. */
  lemma {:induction false} RecordingsComplete(db: Tables, node: NodeId, todo: seq<RequestId>, jobs: seq<Job>,
                                              r: RequestId)
    requires |jobs| <= |todo| && node in db.nodes && forall q <- todo :: IsPending(db, node, q)
    ensures var after := Recordings(db, node, todo, jobs);
      && after.nodes == db.nodes && after.tokens == db.tokens && after.requests.Keys == db.requests.Keys
      && (r in db.requests ==>
            && after.requests[r].node == db.requests[r].node
            && (Reported(todo, jobs, r) ==> after.requests[r].status == Completed && ReportedAs(todo, jobs, r, after.requests[r]))
            && (!Reported(todo, jobs, r) ==> after.requests[r] == db.requests[r]))
    decreases |jobs|
  {
    if jobs == [] {
    } else {
      var init := jobs[..|jobs| - 1];
      RecordingsComplete(db, node, todo, init, r);
      RecordingsComplete(db, node, todo, init, todo[|init|]);
      ReportedLast(todo, jobs, r);
      assert IsPending(db, node, todo[|init|]);
      if r in db.requests && Reported(todo, init, r) && !(todo[|init|] == r && Delivered(jobs[|init|].fate)) {
        ReportedAsLonger(todo, jobs, r, Recordings(db, node, todo, init).requests[r]);
      }
    }
  }

  /** A whole tick: one poll, then every polled request. What stays pending is what was not delivered. */
  lemma TickLeavesUndelivered(c: Link, s: State, node: NodeId, order: seq<RequestId>, jobs: seq<Job>, r: RequestId)
    requires node in s.db.nodes && LoopOf(s, node) == Idle && IsPendingList(s.db, node, order) && |jobs| == |order|
    ensures var t := After(c, s, [Poll(node, order, false)] + Serve(node, jobs));
      && LoopOf(t, node) == Idle
      && (IsPending(t.db, node, r) <==> exists i :: 0 <= i < |order| && order[i] == r && !Delivered(jobs[i].fate))
  {
    AfterFirst(c, s, Poll(node, order, false), Serve(node, jobs));
    if order == [] {
      assert After(c, s, Serve(node, jobs)) == s;
      assert r !in order;
    } else {
      Served(c, Apply(c, s, Poll(node, order, false)), node, order, jobs);
      assert forall q <- order :: IsPending(s.db, node, q);
      RecordingsComplete(s.db, node, order, jobs, r);
      if r in order {
        var i :| 0 <= i < |order| && order[i] == r;
        assert forall j :: 0 <= j < |order| && order[j] == r ==> j == i;
      }
    }
  }
}
