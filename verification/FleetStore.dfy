/** The SQLite store (pkg/fleet/sqlite.go) as three tables. `Tables` and the functions on it say what each
    statement does; class `SQLiteStore` performs them in place. */
module FleetStore {
  import opened FleetTypes

  datatype Tables = Tables(
    nodes: map<NodeId, Node>,
    tokens: map<TokenId, Token>,
    requests: map<RequestId, Request>,
    reports: map<NodeId, seq<Report>>)

  const EMPTY := Tables(map[], map[], map[], map[])

  // ---- node rows ----

  /** The primary key and the unique key hash of the nodes table. */
  predicate CanInsertNode(db: Tables, id: NodeId, row: Node) {
    id !in db.nodes && forall other <- db.nodes :: db.nodes[other].keyHash != row.keyHash
  }

  /** What the unique column keeps. */
  ghost predicate UniqueKeys(rows: map<NodeId, Node>) {
    forall a <- rows, b <- rows :: rows[a].keyHash == rows[b].keyHash ==> a == b
  }

  /** The row as it comes back from the table. */
  function StoredRow(row: Node): Node {
    row.(enrolledAt := Stored(row.enrolledAt), lastHeartbeat := Stored(row.lastHeartbeat), compliance := Unknown,
         passed := 0, failed := 0, warned := 0)
  }

  function InsertNode(db: Tables, id: NodeId, row: Node): Tables {
    if CanInsertNode(db, id, row) then db.(nodes := db.nodes[id := StoredRow(row)]) else db
  }

  function SetHeartbeat(db: Tables, id: NodeId, t: Time): Tables {
    if id in db.nodes
    then db.(nodes := db.nodes[id := db.nodes[id].(lastHeartbeat := Stored(t), status := Online)])
    else db
  }

  function SetStatus(db: Tables, id: NodeId, status: NodeStatus): Tables {
    if id in db.nodes then db.(nodes := db.nodes[id := db.nodes[id].(status := status)]) else db
  }

  function SetCounts(db: Tables, id: NodeId, passed: int, failed: int, warned: int): Tables {
    if id in db.nodes
    then db.(nodes := db.nodes[id := db.nodes[id].(passed := passed, failed := failed, warned := warned)])
    else db
  }

  function SetCompliance(db: Tables, id: NodeId, status: ComplianceStatus): Tables {
    if id in db.nodes then db.(nodes := db.nodes[id := db.nodes[id].(compliance := status)]) else db
  }

  /** Deleting a node takes its remediation requests and reports along (ON DELETE CASCADE). */
  function RemoveNode(db: Tables, id: NodeId): Tables {
    db.(nodes := db.nodes - {id},
        requests := map r | r in db.requests && db.requests[r].node != id :: db.requests[r],
        reports := db.reports - {id})
  }

  function ReportsOf(db: Tables, id: NodeId): seq<Report> {
    if id in db.reports then db.reports[id] else []
  }

  /** Reports of nodes that are gone are refused by the foreign key. */
  function InsertReport(db: Tables, id: NodeId, report: Report): Tables {
    if id in db.nodes then db.(reports := db.reports[id := ReportsOf(db, id) + [report]]) else db
  }

  /** `order` lists exactly the given rows once each, newest enrollment first; ties come in any order. */
  ghost predicate IsListing(rows: map<NodeId, Node>, order: seq<NodeId>) {
    && (forall i, j :: 0 <= i < j < |order| ==> order[i] != order[j])
    && (forall id :: id in order <==> id in rows)
    && (forall i, j :: 0 <= i < j < |order| ==> rows[order[i]].enrolledAt >= rows[order[j]].enrolledAt)
  }

  // ---- token rows ----

  /** The primary key and the unique hash of the tokens table. */
  predicate CanInsertToken(db: Tables, id: TokenId, row: Token) {
    id !in db.tokens && forall other <- db.tokens :: db.tokens[other].hash != row.hash
  }

  ghost predicate UniqueHashes(rows: map<TokenId, Token>) {
    forall a <- rows, b <- rows :: rows[a].hash == rows[b].hash ==> a == b
  }

  /** The row as it comes back from the table. */
  function StoredToken(row: Token): Token {
    row.(expiresAt := Stored(row.expiresAt))
  }

  function InsertToken(db: Tables, id: TokenId, row: Token): Tables {
    if CanInsertToken(db, id, row)
    then db.(tokens := db.tokens[id := StoredToken(row)])
    else db
  }

  function CountUse(db: Tables, id: TokenId): Tables {
    if id in db.tokens
    then db.(tokens := db.tokens[id := db.tokens[id].(usedCount := db.tokens[id].usedCount + 1)])
    else db
  }

  function RemoveToken(db: Tables, id: TokenId): Tables {
    db.(tokens := db.tokens - {id})
  }

  // ---- remediation rows ----

  function InsertRequest(db: Tables, id: RequestId, row: Request): Tables {
    if id !in db.requests && row.node in db.nodes
    then db.(requests := db.requests[id := row.(createdAt := Stored(row.createdAt), completedAt := None, result := "")])
    else db
  }

  function CompleteRequest(db: Tables, id: RequestId, result: string, t: Time): Tables {
    if id in db.requests
    then db.(requests := db.requests[id := db.requests[id].(status := Completed, completedAt := Some(Stored(t)), result := result)])
    else db
  }

  ghost predicate IsPending(db: Tables, node: NodeId, r: RequestId) {
    r in db.requests && db.requests[r].node == node && db.requests[r].status == Pending
  }

  /** `order` lists exactly the node's pending requests once each, oldest first; ties come in any order. */
  ghost predicate IsPendingList(db: Tables, node: NodeId, order: seq<RequestId>) {
    && (forall i, j :: 0 <= i < j < |order| ==> order[i] != order[j])
    && (forall r :: r in order <==> IsPending(db, node, r))
    && (forall i, j :: 0 <= i < j < |order| && order[i] in db.requests && order[j] in db.requests ==>
          db.requests[order[i]].createdAt <= db.requests[order[j]].createdAt)
  }

  class SQLiteStore {
    var nodes: map<NodeId, Node>
    var tokens: map<TokenId, Token>
    var requests: map<RequestId, Request>
    var reports: map<NodeId, seq<Report>>

    ghost function Db(): Tables
      reads this
    {
      Tables(nodes, tokens, requests, reports)
    }

    constructor ()
      ensures Db() == EMPTY
    {
      nodes, tokens, requests, reports := map[], map[], map[], map[];
    }

    method CreateNode(id: NodeId, row: Node) returns (ok: bool)
      modifies `nodes
      ensures ok == CanInsertNode(old(Db()), id, row)
      ensures Db() == InsertNode(old(Db()), id, row)
      ensures ok ==>
        && id !in old(nodes) && nodes.Keys == old(nodes).Keys + {id}
        && nodes[id].name == row.name && nodes[id].role == row.role && nodes[id].region == row.region
        && nodes[id].keyHash == row.keyHash && nodes[id].status == row.status && nodes[id].compliance == Unknown
        && nodes[id].passed == nodes[id].failed == nodes[id].warned == 0
        && nodes[id].enrolledAt == Stored(row.enrolledAt) && nodes[id].lastHeartbeat == Stored(row.lastHeartbeat)
    {
      ok := id !in nodes && forall other <- nodes :: nodes[other].keyHash != row.keyHash;
      if ok {
        nodes := nodes[id := StoredRow(row)];
      }
    }

    method GetNode(id: NodeId) returns (r: Option<Node>)
      ensures r == if id in nodes then Some(nodes[id]) else None
    {
      r := if id in nodes then Some(nodes[id]) else None;
    }

    /** The node holding this API key, if any. */
    method GetNodeByAPIKey(keyHash: Hash) returns (r: Option<NodeId>)
      ensures r.Some? ==> r.value in nodes && nodes[r.value].keyHash == keyHash
      ensures r.None? ==> forall id <- nodes :: nodes[id].keyHash != keyHash
    {
      if id :| id in nodes && nodes[id].keyHash == keyHash {
        r := Some(id);
      } else {
        r := None;
      }
    }

    method UpdateNodeHeartbeat(id: NodeId, t: Time)
      modifies `nodes
      ensures Db() == SetHeartbeat(old(Db()), id, t)
    {
      if id in nodes {
        nodes := nodes[id := nodes[id].(lastHeartbeat := Stored(t), status := Online)];
      }
    }

    method UpdateNodeStatus(id: NodeId, status: NodeStatus)
      modifies `nodes
      ensures Db() == SetStatus(old(Db()), id, status)
    {
      if id in nodes {
        nodes := nodes[id := nodes[id].(status := status)];
      }
    }

    method UpdateNodeCompliance(id: NodeId, passed: int, failed: int, warned: int)
      modifies `nodes
      ensures Db() == SetCounts(old(Db()), id, passed, failed, warned)
    {
      if id in nodes {
        nodes := nodes[id := nodes[id].(passed := passed, failed := failed, warned := warned)];
      }
    }

    method UpdateNodeComplianceStatus(id: NodeId, status: ComplianceStatus)
      modifies `nodes
      ensures Db() == SetCompliance(old(Db()), id, status)
    {
      if id in nodes {
        nodes := nodes[id := nodes[id].(compliance := status)];
      }
    }

    method DeleteNode(id: NodeId)
      modifies `nodes, `requests, `reports
      ensures Db() == RemoveNode(old(Db()), id)
      ensures id !in nodes && id !in reports && tokens == old(tokens)
      ensures forall other | other != id ::
        && (other in nodes <==> other in old(nodes)) && (other in nodes ==> nodes[other] == old(nodes)[other])
        && (other in reports <==> other in old(reports)) && (other in reports ==> reports[other] == old(reports)[other])
      ensures forall r :: r in requests <==> r in old(requests) && old(requests)[r].node != id
      ensures forall r <- requests :: requests[r] == old(requests)[r]
    {
      reports := reports - {id};
      nodes := nodes - {id};
      requests := map r | r in requests && requests[r].node != id :: requests[r];
    }

    /** A node's report is appended to those it has sent before. */
    method StoreReport(id: NodeId, report: Report) returns (ok: bool)
      modifies `reports
      ensures ok == (id in nodes)
      ensures Db() == InsertReport(old(Db()), id, report)
    {
      ok := id in nodes;
      if ok {
        reports := reports[id := (if id in reports then reports[id] else []) + [report]];
      }
    }

    method CreateToken(id: TokenId, row: Token) returns (ok: bool)
      modifies `tokens
      ensures ok == CanInsertToken(old(Db()), id, row)
      ensures Db() == InsertToken(old(Db()), id, row)
      ensures ok ==>
        && tokens[id].hash == row.hash && tokens[id].role == row.role && tokens[id].region == row.region
        && tokens[id].maxUses == row.maxUses && tokens[id].usedCount == row.usedCount
        && tokens[id].expiresAt == Stored(row.expiresAt)
    {
      ok := id !in tokens && forall other <- tokens :: tokens[other].hash != row.hash;
      if ok {
        tokens := tokens[id := row.(expiresAt := Stored(row.expiresAt))];
      }
    }

    method GetToken(hash: Hash) returns (r: Option<TokenId>)
      ensures r.Some? ==> r.value in tokens && tokens[r.value].hash == hash
      ensures r.None? ==> forall id <- tokens :: tokens[id].hash != hash
    {
      if id :| id in tokens && tokens[id].hash == hash {
        r := Some(id);
      } else {
        r := None;
      }
    }

    method IncrementTokenUsage(id: TokenId)
      modifies `tokens
      ensures Db() == CountUse(old(Db()), id)
    {
      if id in tokens {
        tokens := tokens[id := tokens[id].(usedCount := tokens[id].usedCount + 1)];
      }
    }

    method DeleteToken(id: TokenId)
      modifies `tokens
      ensures Db() == RemoveToken(old(Db()), id)
    {
      tokens := tokens - {id};
    }

    method CreateRemediationRequest(id: RequestId, row: Request) returns (ok: bool)
      modifies `requests
      ensures ok == (id !in old(requests) && row.node in old(nodes))
      ensures Db() == InsertRequest(old(Db()), id, row)
      ensures ok ==>
        && requests[id].node == row.node && requests[id].actions == row.actions && requests[id].dryRun == row.dryRun
        && requests[id].status == row.status && requests[id].createdAt == Stored(row.createdAt)
        && requests[id].completedAt == None && requests[id].result == ""
    {
      ok := id !in requests && row.node in nodes;
      if ok {
        requests := requests[id := row.(createdAt := Stored(row.createdAt), completedAt := None, result := "")];
      }
    }

    method CompleteRemediation(id: RequestId, result: string, t: Time)
      modifies `requests
      ensures Db() == CompleteRequest(old(Db()), id, result, t)
      ensures id in old(requests) ==>
        && id in requests && requests[id].status == Completed && requests[id].result == result
        && requests[id].completedAt == Some(Stored(t)) && requests[id].node == old(requests)[id].node
        && requests[id].actions == old(requests)[id].actions && requests[id].dryRun == old(requests)[id].dryRun
    {
      if id in requests {
        requests := requests[id := requests[id].(status := Completed, completedAt := Some(Stored(t)), result := result)];
      }
    }
  }
}
