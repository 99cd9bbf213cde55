/** Token-based enrollment (pkg/fleet/enrollment.go). */
module Enrollments {
  import opened FleetTypes
  import opened FleetStore

  /** The token CreateToken stores; non-positive uses and lifetimes select 1 and one hour. */
  function NewToken(hash: Hash, role: Role, region: string, uses: int, expiresIn: int, now: Time): (t: Token)
    ensures t.hash == hash && t.role == role && t.region == region && t.usedCount == 0
    ensures t.maxUses >= 1 && t.expiresAt >= now + SECOND
    ensures uses > 0 ==> t.maxUses == uses
    ensures uses <= 0 ==> t.maxUses == 1
    ensures t.expiresAt - now == (if expiresIn > 0 then expiresIn else 3600) * SECOND
  {
    Token(hash, role, region, now + (if expiresIn <= 0 then 3600 else expiresIn) * SECOND,
          if uses <= 0 then 1 else uses, 0)
  }

  datatype EnrollRequest = EnrollRequest(name: string, region: string)

  /** The checks of Enroll on the token row it read. */
  predicate Admits(row: Token, now: Time) {
    now <= row.expiresAt && (row.maxUses > 0 ==> row.usedCount < row.maxUses)
  }

  function NewNode(row: Token, req: EnrollRequest, key: Hash, now: Time): Node {
    Node(req.name, row.role, if req.region == "" then row.region else req.region, key, now, now, Online, 0, 0, 0, Unknown)
  }

  datatype Outcome =
    | Joined(node: NodeId, token: TokenId, reportInterval: nat)
    | TokenRequired | NameRequired | InvalidToken | Expired | Exhausted | StoreRefused

  datatype Creation = TokenCreated | RoleRequired | TokenRefused

  class Enrollment {
    const store: SQLiteStore

    constructor (store: SQLiteStore)
      ensures this.store == store
    {
      this.store := store;
    }

    /** `id` and `hash` are the random id and the hash of the random secret. */
    method CreateToken(role: Role, region: string, uses: int, expiresIn: int, id: TokenId, hash: Hash, now: Time)
      returns (r: Creation)
      modifies store`tokens
      ensures r == RoleRequired <==> role == OtherRole("")
      ensures r == TokenCreated <==>
        && role != OtherRole("")
        && CanInsertToken(old(store.Db()), id, NewToken(hash, role, region, uses, expiresIn, now))
      ensures store.Db() == if r == TokenCreated
        then InsertToken(old(store.Db()), id, NewToken(hash, role, region, uses, expiresIn, now))
        else old(store.Db())
      ensures r == TokenCreated ==>
        && id !in old(store.tokens) && id in store.tokens && store.tokens == old(store.tokens)[id := store.tokens[id]]
        && store.tokens[id].hash == hash && store.tokens[id].role == role && store.tokens[id].region == region
        && store.tokens[id].maxUses == (if uses > 0 then uses else 1) && store.tokens[id].usedCount == 0
        && store.tokens[id].expiresAt == Stored(now + (if expiresIn > 0 then expiresIn else 3600) * SECOND)
    {
      if role == OtherRole("") {
        return RoleRequired;
      }
      var maxUses := uses;
      if maxUses <= 0 {
        maxUses := 1;
      }
      var lifetime := expiresIn;
      if lifetime <= 0 {
        lifetime := 3600;
      }
      var ok := store.CreateToken(id, Token(hash, role, region, now + lifetime * SECOND, maxUses, 0));
      r := if ok then TokenCreated else TokenRefused;
    }

    /** `secret` is the hash of the presented token, None when it is empty; `id` and `key` are random.
        The clock is read for the expiry check and again for the timestamps. */
    method Enroll(secret: Option<Hash>, req: EnrollRequest, id: NodeId, key: Hash, checkedAt: Time, now: Time)
      returns (r: Outcome)
      requires checkedAt <= now
      modifies store`nodes, store`tokens
      ensures match r
        case Joined(node, token, interval) =>
          && node == id && secret.Some? && req.name != ""
          && token in old(store.tokens) && old(store.tokens)[token].hash == secret.value
          && checkedAt <= old(store.tokens)[token].expiresAt
          && (old(store.tokens)[token].maxUses > 0 ==> old(store.tokens)[token].usedCount < old(store.tokens)[token].maxUses)
          && CanInsertNode(old(store.Db()), id, NewNode(old(store.tokens)[token], req, key, now))
          && store.Db() == CountUse(InsertNode(old(store.Db()), id, NewNode(old(store.tokens)[token], req, key, now)), token)
          && interval == if old(store.tokens)[token].role == Client then 60 else 30
        case _ => store.Db() == old(store.Db())
      ensures r.Joined? ==>
        && id !in old(store.nodes) && store.nodes.Keys == old(store.nodes).Keys + {id}
        && store.nodes[id].name == req.name && store.nodes[id].role == old(store.tokens)[r.token].role
        && (req.region != "" ==> store.nodes[id].region == req.region)
        && (req.region == "" ==> store.nodes[id].region == old(store.tokens)[r.token].region)
        && store.nodes[id].keyHash == key && store.nodes[id].status == Online && store.nodes[id].compliance == Unknown
        && store.nodes[id].enrolledAt == store.nodes[id].lastHeartbeat == Stored(now)
      ensures r == TokenRequired <==> secret == None
      ensures r == NameRequired <==> secret.Some? && req.name == ""
      ensures r == InvalidToken <==>
              secret.Some? && req.name != "" && forall t <- old(store.tokens) :: old(store.tokens)[t].hash != secret.value
      ensures r == Expired ==>
              exists t <- old(store.tokens) ::
                old(store.tokens)[t].hash == secret.value && checkedAt > old(store.tokens)[t].expiresAt
      ensures r == Exhausted ==>
              exists t <- old(store.tokens) ::
                && old(store.tokens)[t].hash == secret.value && checkedAt <= old(store.tokens)[t].expiresAt
                && 0 < old(store.tokens)[t].maxUses <= old(store.tokens)[t].usedCount
      ensures r == StoreRefused ==>
              exists t <- old(store.tokens) ::
                && old(store.tokens)[t].hash == secret.value && checkedAt <= old(store.tokens)[t].expiresAt
                && !CanInsertNode(old(store.Db()), id, NewNode(old(store.tokens)[t], req, key, now))
      ensures UniqueHashes(old(store.tokens)) ==>
        forall t <- old(store.tokens) | secret == Some(old(store.tokens)[t].hash) && req.name != "" ::
          var row := old(store.tokens)[t];
          && (r == Expired <==> checkedAt > row.expiresAt)
          && (r == Exhausted <==> checkedAt <= row.expiresAt && 0 < row.maxUses <= row.usedCount)
          && (r == StoreRefused <==>
                && checkedAt <= row.expiresAt && (row.maxUses > 0 ==> row.usedCount < row.maxUses)
                && (id in old(store.nodes) || exists other <- old(store.nodes) :: old(store.nodes)[other].keyHash == key))
    {
      if secret == None {
        return TokenRequired;
      }
      if req.name == "" {
        return NameRequired;
      }
      var found := store.GetToken(secret.value);
      if found == None {
        return InvalidToken;
      }
      var row := store.tokens[found.value];
      if checkedAt > row.expiresAt {
        return Expired;
      }
      if row.maxUses > 0 && row.usedCount >= row.maxUses {
        return Exhausted;
      }
      var region := req.region;
      if region == "" {
        region := row.region;
      }
      var node := Node(req.name, row.role, region, key, now, now, Online, 0, 0, 0, Unknown);
      var ok := store.CreateNode(id, node);
      if !ok {
        return StoreRefused;
      }
      store.IncrementTokenUsage(found.value);
      var interval := 30;
      if row.role == Client {
        interval := 60;
      }
      r := Joined(id, found.value, interval);
    }
  }
}
