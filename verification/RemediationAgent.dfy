/** One tick of the agent's polling loop (cmd/agent/main.go) against the controller's handlers, without
    interruption. */
module RemediationAgents {
  import opened FleetTypes
  import opened FleetStore
  import opened FleetHandlers
  import opened RemediationActions
  import opened RemediationExecutor
  import opened RemediationProtocol

  /** What the outside contributes to handling one polled request: the checks run for it, the fate of the
      post and the controller's clock. */
  datatype Attempt = Attempt(section: Section, fate: Fate, at: Time)

  function ParseActions(texts: seq<string>): seq<ActionId> {
    seq(|texts|, i requires 0 <= i < |texts| => ParseAction(texts[i]))
  }

  /** The result text is the encoding of the executor's entries for the requested actions, over a plan made
      from the checks just run. */
  ghost predicate IsResult(text: string, section: Section, req: Request, commands: Commander,
                           encode: seq<Action> -> string) {
    exists guides, lookup :: IsResultOf(text, AgentPlan(guides, section.items), lookup, req, commands, encode)
  }

  ghost predicate IsResultOf(text: string, plan: seq<Action>, lookup: map<ActionId, nat>, req: Request,
                             commands: Commander, encode: seq<Action> -> string) {
    IsLookup(plan, lookup) && text == encode(Entries(plan, lookup, req.dryRun, commands, ParseActions(req.actions)))
  }

  /** The node is there and this is its key. */
  predicate Authentic(rows: map<NodeId, Node>, key: Hash, node: NodeId) {
    node in rows && rows[node].keyHash == key
  }

  /** One job of a tick, told from the attempt and the request as polled. */
  ghost predicate IsJob(job: Job, attempt: Attempt, r: RequestId, polled: map<RequestId, Request>,
                        commands: Commander, encode: seq<Action> -> string) {
    && job.fate == attempt.fate && job.at == attempt.at
    && r in polled && IsResult(job.result, attempt.section, polled[r], commands, encode)
  }

  ghost predicate AreJobs(jobs: seq<Job>, attempts: seq<Attempt>, pending: seq<RequestId>,
                          polled: map<RequestId, Request>, commands: Commander, encode: seq<Action> -> string) {
    && |jobs| <= |pending| == |attempts|
    && forall i :: 0 <= i < |jobs| ==> IsJob(jobs[i], attempts[i], pending[i], polled, commands, encode)
  }

  lemma MoreJobs(jobs: seq<Job>, job: Job, attempts: seq<Attempt>, pending: seq<RequestId>,
                 polled: map<RequestId, Request>, commands: Commander, encode: seq<Action> -> string)
    requires AreJobs(jobs, attempts, pending, polled, commands, encode) && |jobs| < |pending|
    requires IsJob(job, attempts[|jobs|], pending[|jobs|], polled, commands, encode)
    ensures AreJobs(jobs + [job], attempts, pending, polled, commands, encode)
  {
  }

  /** Nothing is recorded for a node that is gone or a key that is not its own. */
  function RecordedIf(authentic: bool, db: Tables, node: NodeId, pending: seq<RequestId>, jobs: seq<Job>): Tables
    requires |jobs| <= |pending|
  {
    if authentic then Recordings(db, node, pending, jobs) else db
  }

  lemma MoreRecorded(authentic: bool, db: Tables, node: NodeId, pending: seq<RequestId>, jobs: seq<Job>, job: Job)
    requires |jobs| < |pending|
    ensures var sofar, r := RecordedIf(authentic, db, node, pending, jobs), pending[|jobs|];
      RecordedIf(authentic, db, node, pending, jobs + [job])
        == if Delivered(job.fate) && authentic && Accepts(sofar, node, r) then CompleteRequest(sofar, r, job.result, job.at)
           else sofar
  {
    assert (jobs + [job])[..|jobs|] == jobs;
  }

  /** The commands run for a request are among its actions, and a dry run runs none. */
  ghost predicate RanFor(req: Request, before: seq<ActionId>, after: seq<ActionId>) {
    && before <= after && (req.dryRun ==> after == before)
    && forall k :: |before| <= k < |after| ==> Text(after[k]) in req.actions
  }

  lemma CommandsRanFor(req: Request, before: seq<ActionId>, plan: seq<Action>, lookup: map<ActionId, nat>)
    ensures RanFor(req, before, before + Commands(plan, lookup, req.dryRun, ParseActions(req.actions)))
  {
    var ids := ParseActions(req.actions);
    var ran := Commands(plan, lookup, req.dryRun, ids);
    CommandsAreRequested(plan, lookup, req.dryRun, ids, EnableOSFIPS);
    forall k | 0 <= k < |ran|
      ensures Text(ran[k]) in req.actions
    {
      CommandsAreRequested(plan, lookup, req.dryRun, ids, ran[k]);
      assert ran[k] in multiset(ran) && ran[k] in multiset(ids);
      var i :| 0 <= i < |ids| && ids[i] == ran[k];
      assert Text(ids[i]) == req.actions[i];
    }
  }

  /** Every command that was run is an action of one of the requests that are not dry runs. */
  ghost predicate RanAmong(pending: seq<RequestId>, polled: map<RequestId, Request>, before: seq<ActionId>,
                           after: seq<ActionId>) {
    && before <= after
    && forall k :: |before| <= k < |after| ==>
         exists r <- pending :: r in polled && !polled[r].dryRun && Text(after[k]) in polled[r].actions
  }

  lemma RanMore(pending: seq<RequestId>, polled: map<RequestId, Request>, r: RequestId, first: seq<ActionId>,
                before: seq<ActionId>, after: seq<ActionId>)
    requires RanAmong(pending, polled, first, before) && r in pending && r in polled && RanFor(polled[r], before, after)
    ensures RanAmong(pending, polled, first, after)
  {
    forall k | |first| <= k < |after|
      ensures exists q <- pending :: q in polled && !polled[q].dryRun && Text(after[k]) in polled[q].actions
    {
      if k < |before| {
        assert after[k] == before[k];
      } else {
        assert r in pending && !polled[r].dryRun;
      }
    }
  }

  class PollLoop {
    const handler: FleetHandler
    const executor: Executor
    const node: NodeId
    const key: Hash
    const guides: Guides

    constructor (handler: FleetHandler, executor: Executor, node: NodeId, key: Hash, guides: Guides)
      ensures this.handler == handler && this.executor == executor && this.node == node && this.key == key
    {
      this.handler, this.executor, this.node, this.key, this.guides := handler, executor, node, key, guides;
    }

    method Remediate(req: Request, section: Section, commands: Commander, encode: seq<Action> -> string)
      returns (text: string)
      modifies executor
      ensures IsResult(text, section, req, commands, encode)
      ensures RanFor(req, old(executor.started), executor.started)
    {
      var plan := Plan(guides, section);
      var ids := [];
      for i := 0 to |req.actions|
        invariant ids == ParseActions(req.actions[..i])
      {
        ids := ids + [ParseAction(req.actions[i])];
      }
      assert req.actions[..|req.actions|] == req.actions;
      var available := new Action[|plan|](i requires 0 <= i < |plan| => plan[i]);
      assert available[..] == plan;
      var results;
      ghost var lookup;
      results, lookup := executor.Execute(ids, req.dryRun, available, commands);
      CommandsRanFor(req, old(executor.started), plan, lookup);
      text := encode(results);
      assert IsResultOf(text, AgentPlan(guides, section.items), lookup, req, commands, encode);
    }

    /** One polled request: execute and post. */
    method Serve(r: RequestId, req: Request, attempt: Attempt, commands: Commander, encode: seq<Action> -> string)
      returns (text: string)
      requires UniqueKeys(handler.store.nodes)
      modifies handler.store`requests, handler.events, executor
      ensures IsResult(text, attempt.section, req, commands, encode)
      ensures RanFor(req, old(executor.started), executor.started)
      ensures handler.store.Db() ==
        if Delivered(attempt.fate) && Authentic(handler.store.nodes, key, node) && Accepts(old(handler.store.Db()), node, r)
        then CompleteRequest(old(handler.store.Db()), r, text, attempt.at) else old(handler.store.Db())
    {
      text := Remediate(req, attempt.section, commands, encode);
      if Delivered(attempt.fate) {
        var _ := handler.HandlePostRemediationResult(Some(key), node, r, text, attempt.at);
      }
    }

    /** The loop over the polled requests. */
    method ServeAll(pending: seq<RequestId>, polled: map<RequestId, Request>, attempts: seq<Attempt>,
                    commands: Commander, encode: seq<Action> -> string)
      returns (ghost jobs: seq<Job>, served: nat)
      requires UniqueKeys(handler.store.nodes)
      requires |attempts| == |pending| && forall r <- pending :: r in polled
      modifies handler.store`requests, handler.events, executor
      ensures served == |jobs| == |pending|
      ensures AreJobs(jobs, attempts, pending, polled, commands, encode)
      ensures var authentic := Authentic(handler.store.nodes, key, node);
        handler.store.Db() == RecordedIf(authentic, old(handler.store.Db()), node, pending, jobs)
      ensures RanAmong(pending, polled, old(executor.started), executor.started)
    {
      jobs, served := [], 0;
      ghost var before := handler.store.Db();
      ghost var authentic := Authentic(handler.store.nodes, key, node);
      while served < |pending|
        invariant served <= |pending| && |jobs| == served
        invariant handler.store.nodes == before.nodes
        invariant AreJobs(jobs, attempts, pending, polled, commands, encode)
        invariant handler.store.Db() == RecordedIf(authentic, before, node, pending, jobs)
        invariant RanAmong(pending, polled, old(executor.started), executor.started)
      {
        var r := pending[served];
        assert r in pending;
        ghost var ran := executor.started;
        var text := Serve(r, polled[r], attempts[served], commands, encode);
        RanMore(pending, polled, r, old(executor.started), ran, executor.started);
        ghost var job := Job(attempts[served].fate, text, attempts[served].at);
        MoreJobs(jobs, job, attempts, pending, polled, commands, encode);
        MoreRecorded(authentic, before, node, pending, jobs, job);
        jobs, served := jobs + [job], served + 1;
      }
    }

    /** Poll, and handle each polled request in turn. The tables end as the protocol says, and every result
        sent is the executor's. A node that is gone, or a key that is not its own, polls in vain. `order` is the
        order of the query's rows, `answered` whether the poll's response arrived. */
    method Tick(order: seq<RequestId>, answered: bool, attempts: seq<Attempt>, commands: Commander,
                encode: seq<Action> -> string)
      returns (ghost jobs: seq<Job>, served: nat)
      requires UniqueKeys(handler.store.nodes)
      requires IsPendingList(handler.store.Db(), node, order)
      requires |attempts| == |order|
      modifies handler.store`requests, handler.events, executor
      ensures served == |jobs| == if answered && Authentic(handler.store.nodes, key, node) then |order| else 0
      ensures AreJobs(jobs, attempts, order, old(handler.store.requests), commands, encode)
      ensures handler.store.Db() == Recordings(old(handler.store.Db()), node, order, jobs)
      ensures RanAmong(order, old(handler.store.requests), old(executor.started), executor.started)
    {
      var status, pending := handler.HandlePollRemediations(Some(key), node, order);
      jobs, served := [], 0;
      if answered && status == OK {
        assert forall r <- pending :: IsPending(handler.store.Db(), node, r);
        jobs, served := ServeAll(pending, handler.store.requests, attempts, commands, encode);
      }
    }
  }
}
