/** The fleet HTTP handlers (internal/dashboard/fleet_handler.go) as methods that run without interruption. */
module FleetHandlers {
  import opened FleetTypes
  import opened FleetStore
  import opened Events
  import opened CompliancePolicy
  import opened Enrollments
  import opened FleetAtomicity
  import opened RemediationActions

  datatype Response = OK | Created | BadRequest | Unauthorized | Forbidden | NotFound | ServerError

  datatype Route = Route(node: NodeId, name: string, status: NodeStatus, compliance: ComplianceStatus, routable: bool)

  function RouteOf(policy: Policy, id: NodeId, row: Node): Route {
    Route(id, row.name, row.status, row.compliance, Routable(policy, row))
  }

  /** The server rows, the only ones the routing table is about. */
  function Servers(rows: map<NodeId, Node>): map<NodeId, Node> {
    map id | id in rows && rows[id].role == Server :: rows[id]
  }

  /** The key belongs to this node and, as the unique column guarantees, to no other. */
  ghost predicate KeyOf(rows: map<NodeId, Node>, key: Option<Hash>, id: NodeId) {
    id in rows && key == Some(rows[id].keyHash) && forall other <- rows :: rows[other].keyHash == rows[id].keyHash ==> other == id
  }

  /** The routes made from a listing are about the servers and nobody else. */
  lemma RoutesCover(rows: map<NodeId, Node>, order: seq<NodeId>, routes: seq<Route>)
    requires IsListing(Servers(rows), order) && |routes| == |order|
    requires forall i :: 0 <= i < |routes| ==> routes[i].node == order[i]
    ensures forall id <- rows :: rows[id].role == Server <==> exists r <- routes :: r.node == id
  {
    forall id | id in rows && rows[id].role == Server
      ensures exists r <- routes :: r.node == id
    {
      assert id in Servers(rows);
      var i :| 0 <= i < |order| && order[i] == id;
      assert routes[i] in routes;
    }
    forall r | r in routes
      ensures r.node in Servers(rows)
    {
      var i :| 0 <= i < |routes| && routes[i] == r;
      assert order[i] in order;
    }
  }

  class FleetHandler {
    const store: SQLiteStore
    const enrollment: Enrollment
    const events: Channel
    var policy: Policy

    /** Without a configured policy the handler audits. */
    constructor (store: SQLiteStore, events: Channel, policy: Option<Policy>)
      ensures this.store == store && this.events == events && this.enrollment.store == store
      ensures this.policy == match policy case Some(p) => p case None => Policy(Audit, false, false, false, 0)
    {
      this.store := store;
      this.events := events;
      this.enrollment := new Enrollment(store);
      this.policy := match policy case Some(p) => p case None => Policy(Audit, false, false, false, 0);
    }

    /** `key` is the hash of the bearer token, None without an Authorization header. */
    method AuthenticateNode(key: Option<Hash>) returns (r: Response, node: NodeId)
      ensures r == Unauthorized <==> key == None
      ensures r == OK ==> node in store.nodes && store.nodes[node].keyHash == key.value
      ensures r == Forbidden <==> key.Some? && forall id <- store.nodes :: store.nodes[id].keyHash != key.value
      ensures r in {OK, Unauthorized, Forbidden}
    {
      node := 0;
      if key == None {
        return Unauthorized, node;
      }
      var found := store.GetNodeByAPIKey(key.value);
      if found == None {
        return Forbidden, node;
      }
      r, node := OK, found.value;
    }

    /** The request of an administrator; the secret token itself is random. */
    method HandleCreateToken(admin: bool, role: Role, region: string, uses: int, expiresIn: int, id: TokenId,
                             hash: Hash, now: Time)
      returns (r: Response)
      requires enrollment.store == store
      modifies store`tokens
      ensures r == Forbidden <==> !admin
      ensures r == Created <==>
        && admin && role != OtherRole("")
        && CanInsertToken(old(store.Db()), id, NewToken(hash, role, region, uses, expiresIn, now))
      ensures store.Db() == if r == Created
        then InsertToken(old(store.Db()), id, NewToken(hash, role, region, uses, expiresIn, now))
        else old(store.Db())
      ensures r == Created ==>
        && id in store.tokens && store.tokens[id].role == role && store.tokens[id].region == region
        && store.tokens[id].maxUses == if uses > 0 then uses else 1
    {
      if !admin {
        return Forbidden;
      }
      var creation := enrollment.CreateToken(role, region, uses, expiresIn, id, hash, now);
      r := if creation == TokenCreated then Created else BadRequest;
    }

    method HandleEnroll(secret: Option<Hash>, req: EnrollRequest, id: NodeId, key: Hash, checkedAt: Time, now: Time)
      returns (r: Outcome)
      requires checkedAt <= now && enrollment.store == store
      modifies store`nodes, store`tokens, events
      ensures !r.Joined? ==> store.Db() == old(store.Db()) && events.queue == old(events.queue)
      ensures r.Joined? ==>
        && r.node == id && id !in old(store.nodes) && id in store.nodes
        && r.token in old(store.tokens) && checkedAt <= old(store.tokens)[r.token].expiresAt
        && r.token in store.tokens && store.tokens[r.token].usedCount == old(store.tokens)[r.token].usedCount + 1
        && store.nodes == old(store.nodes)[id := store.nodes[id]]
        && store.nodes[id].name == req.name && store.nodes[id].role == old(store.tokens)[r.token].role
        && store.nodes[id].region == (if req.region == "" then old(store.tokens)[r.token].region else req.region)
        && store.nodes[id].status == Online && store.nodes[id].compliance == Unknown
        && store.nodes[id].lastHeartbeat == Stored(now)
        && events.queue == Offer(old(events.queue), events.capacity, Event("node_joined", id, store.nodes[id], now))
    {
      r := enrollment.Enroll(secret, req, id, key, checkedAt, now);
      if r.Joined? {
        var node := store.GetNode(r.node);
        if node.Some? {
          events.Send(Event("node_joined", r.node, node.value, now));
        }
      }
    }

    /** `body` is the decoded report, None if it cannot be decoded; `stamp` is the clock at the heartbeat
        write and `at` at the event. `start` and `seen` are what the dereferences of the policy return while
        other requests may replace it. */
    method HandleReport(key: Option<Hash>, claimed: NodeId, body: Option<Report>, stamp: Time, at: Time,
                        start: Policy, seen: seq<Policy>)
      returns (r: Response)
      requires body.Some? ==> |seen| == |Items(body.value)|
      modifies store`nodes, store`reports, events
      ensures KeyOf(old(store.nodes), key, claimed) ==> r == if body == None then BadRequest else OK
      ensures r == OK ==>
        && body.Some? && claimed in old(store.nodes) && key == Some(old(store.nodes)[claimed].keyHash)
        && store.Db() == ReportEffect(old(store.Db()), claimed, body.value, stamp, Verdict(start, seen, body.value))
        && claimed in store.nodes
        && events.queue == Offer(old(events.queue), events.capacity,
             Event("node_updated", claimed, store.nodes[claimed].(compliance := old(store.nodes)[claimed].compliance), at))
      ensures r != OK ==> store.Db() == old(store.Db()) && events.queue == old(events.queue)
    {
      var node;
      r, node := AuthenticateNode(key);
      if r != OK {
        return;
      }
      if body == None {
        return BadRequest;
      }
      if claimed != node {
        return Forbidden;
      }
      SaveReport(node, body.value, stamp);
      var updated := store.GetNode(node);
      if updated.Some? {
        events.Send(Event("node_updated", node, updated.value, at));
      }
      EvaluateNodeCompliance(node, body.value, start, seen);
    }

    /** The four statements before the event. */
    method SaveReport(node: NodeId, report: Report, stamp: Time)
      modifies store`nodes, store`reports
      ensures store.Db() == ReportEffect(old(store.Db()), node, report, stamp, None)
    {
      var _ := store.StoreReport(node, report);
      store.UpdateNodeCompliance(node, report.passed, report.failed, report.warned);
      store.UpdateNodeHeartbeat(node, stamp);
      var status := Online;
      if report.failed > 0 {
        status := Degraded;
      }
      store.UpdateNodeStatus(node, status);
    }

    method EvaluateNodeCompliance(node: NodeId, report: Report, start: Policy, seen: seq<Policy>)
      requires |seen| == |Items(report)|
      modifies store`nodes
      ensures store.Db() == match Verdict(start, seen, report)
        case None => old(store.Db())
        case Some(compliant) => SetCompliance(old(store.Db()), node, if compliant then Compliant else NonCompliant)
    {
      if start.mode == Disabled {
        return;
      }
      var compliant := Judge(seen, report);
      var status := Compliant;
      if !compliant {
        status := NonCompliant;
      }
      store.UpdateNodeComplianceStatus(node, status);
    }

    method HandleHeartbeat(key: Option<Hash>, now: Time) returns (r: Response)
      modifies store`nodes
      ensures (exists node <- old(store.nodes) :: key == Some(old(store.nodes)[node].keyHash)) ==> r == OK
      ensures r == OK ==>
        exists node <- old(store.nodes) :: key == Some(old(store.nodes)[node].keyHash)
          && store.Db() == SetHeartbeat(old(store.Db()), node, now)
      ensures r != OK ==> store.Db() == old(store.Db())
    {
      var node;
      r, node := AuthenticateNode(key);
      if r != OK {
        return;
      }
      store.UpdateNodeHeartbeat(node, now);
    }

    /** Nodes are not re-evaluated: only later reports meet the new policy. */
    method HandleUpdatePolicy(admin: bool, policy: Policy) returns (r: Response)
      modifies this`policy
      ensures r == if !admin then Forbidden else if policy.mode.OtherMode? then BadRequest else OK
      ensures this.policy == if r == OK then policy else old(this.policy)
    {
      if !admin {
        return Forbidden;
      }
      match policy.mode {
        case Enforce =>
        case Audit =>
        case Disabled =>
        case OtherMode(_) => return BadRequest;
      }
      this.policy := policy;
      r := OK;
    }

    method HandleDeleteNode(admin: bool, id: NodeId, at: Time) returns (r: Response)
      modifies store`nodes, store`requests, store`reports, events
      ensures r == if !admin then Forbidden else if id !in old(store.nodes) then NotFound else OK
      ensures store.Db() == if r == OK then RemoveNode(old(store.Db()), id) else old(store.Db())
      ensures events.queue == if r == OK
        then Offer(old(events.queue), events.capacity, Event("node_removed", id, old(store.nodes)[id], at))
        else old(events.queue)
    {
      if !admin {
        return Forbidden;
      }
      var node := store.GetNode(id);
      if node == None {
        return NotFound;
      }
      store.DeleteNode(id);
      events.Send(Event("node_removed", id, node.value, at));
      r := OK;
    }

    /** `order` is the order in which the query returned the server rows; `seen` is what the dereferences of
        the policy return, row by row. */
    method HandleGetRoutes(order: seq<NodeId>, seen: seq<Policy>) returns (routes: seq<Route>)
      requires IsListing(Servers(store.nodes), order) && |seen| == |order|
      ensures |routes| == |order|
      ensures forall i :: 0 <= i < |routes| ==>
        order[i] in store.nodes && routes[i] == RouteOf(seen[i], order[i], store.nodes[order[i]])
      ensures forall i :: 0 <= i < |routes| ==>
        var row := store.nodes[order[i]];
        && routes[i].node == order[i] && routes[i].name == row.name
        && routes[i].status == row.status && routes[i].compliance == row.compliance
        && (forall j :: i < j < |routes| ==> row.enrolledAt >= store.nodes[order[j]].enrolledAt)
        && (routes[i].routable <==> row.status == Online && (row.compliance == Compliant || seen[i].mode != Enforce))
      ensures forall id <- store.nodes :: store.nodes[id].role == Server <==> exists r <- routes :: r.node == id
    {
      routes := [];
      for i := 0 to |order|
        invariant |routes| == i
        invariant forall k :: 0 <= k < i ==>
          order[k] in store.nodes && routes[k] == RouteOf(seen[k], order[k], store.nodes[order[k]])
      {
        assert order[i] in order;
        var row := store.nodes[order[i]];
        var routable := row.status == Online;
        if seen[i].mode == Enforce {
          routable := routable && row.compliance == Compliant;
        }
        routes := routes + [Route(order[i], row.name, row.status, row.compliance, routable)];
      }
      RoutesCover(store.nodes, order, routes);
    }

    /** `latest` is the report the query returned, None if the node has none. */
    method HandleGetRemediationPlan(admin: bool, node: NodeId, latest: Option<Report>)
      returns (r: Response, plan: seq<PlanAction>)
      requires match latest
        case None => ReportsOf(store.Db(), node) == []
        case Some(report) => report in ReportsOf(store.Db(), node)
      ensures r == if !admin then Forbidden else if ReportsOf(store.Db(), node) == [] then NotFound else OK
      ensures plan == if r == OK && latest.Some? then ControllerPlan(Items(latest.value)) else []
    {
      plan := [];
      if !admin {
        return Forbidden, [];
      }
      if latest == None {
        return NotFound, [];
      }
      plan := PlanReport(latest.value);
      r := OK;
    }

    /** `id` is the generated request id. */
    method HandleRequestRemediation(admin: bool, node: NodeId, actions: seq<string>, dryRun: bool, id: RequestId,
                                    now: Time)
      returns (r: Response)
      modifies store`requests, events
      ensures r == if !admin then Forbidden
                   else if node !in store.nodes then NotFound
                   else if actions == [] then BadRequest
                   else if id in old(store.requests) then ServerError
                   else Created
      ensures store.Db() == if r == Created
        then InsertRequest(old(store.Db()), id, Request(node, actions, dryRun, Pending, now, None, ""))
        else old(store.Db())
      ensures r == Created ==>
        && id in store.requests && store.requests[id].node == node && store.requests[id].actions == actions
        && store.requests[id].dryRun == dryRun && store.requests[id].status == Pending
        && forall other <- old(store.requests) :: other in store.requests && store.requests[other] == old(store.requests)[other]
      ensures events.queue == if r == Created
        then Offer(old(events.queue), events.capacity, Event("remediation_requested", node, store.nodes[node], now))
        else old(events.queue)
    {
      if !admin {
        return Forbidden;
      }
      var row := store.GetNode(node);
      if row == None {
        return NotFound;
      }
      if |actions| == 0 {
        return BadRequest;
      }
      var ok := store.CreateRemediationRequest(id, Request(node, actions, dryRun, Pending, now, None, ""));
      if !ok {
        return ServerError;
      }
      events.Send(Event("remediation_requested", node, row.value, now));
      r := Created;
    }

    /** `order` is the order in which the query returned the node's pending requests. */
    method HandlePollRemediations(key: Option<Hash>, claimed: NodeId, order: seq<RequestId>)
      returns (r: Response, reqs: seq<RequestId>)
      requires IsPendingList(store.Db(), claimed, order)
      ensures KeyOf(store.nodes, key, claimed) ==> r == OK
      ensures r == OK ==>
        && claimed in store.nodes && key == Some(store.nodes[claimed].keyHash)
        && reqs == order && (forall q :: q in reqs <==> IsPending(store.Db(), claimed, q))
        && (forall q <- reqs :: q in store.requests)
        && forall i, j :: 0 <= i < j < |reqs| ==>
             && reqs[i] != reqs[j] && reqs[i] in store.requests && reqs[j] in store.requests
             && store.requests[reqs[i]].createdAt <= store.requests[reqs[j]].createdAt
      ensures r != OK ==> reqs == []
    {
      reqs := [];
      var node;
      r, node := AuthenticateNode(key);
      if r != OK {
        return;
      }
      if claimed != node {
        return Forbidden, [];
      }
      reqs := order;
      forall q | q in order
        ensures q in store.requests
      {
        assert IsPending(store.Db(), claimed, q);
      }
    }

    method HandlePostRemediationResult(key: Option<Hash>, claimed: NodeId, id: RequestId, result: string, now: Time)
      returns (r: Response)
      modifies store`requests, events
      ensures KeyOf(store.nodes, key, claimed) ==>
        r == if id !in old(store.requests) then NotFound
             else if old(store.requests)[id].node != claimed then Forbidden else OK
      ensures r == OK ==>
        && claimed in store.nodes && key == Some(store.nodes[claimed].keyHash)
        && id in old(store.requests) && old(store.requests)[id].node == claimed
        && store.Db() == CompleteRequest(old(store.Db()), id, result, now)
        && events.queue == Offer(old(events.queue), events.capacity,
                                 Event("remediation_completed", claimed, store.nodes[claimed], now))
      ensures r != OK ==> store.Db() == old(store.Db()) && events.queue == old(events.queue)
    {
      var node;
      r, node := AuthenticateNode(key);
      if r != OK {
        return;
      }
      if claimed != node {
        return Forbidden;
      }
      if id !in store.requests {
        return NotFound;
      }
      if store.requests[id].node != claimed {
        return Forbidden;
      }
      store.CompleteRemediation(id, result, now);
      events.Send(Event("remediation_completed", node, store.nodes[node], now));
    }
  }
}
