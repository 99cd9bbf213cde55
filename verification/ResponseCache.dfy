/** The caching Cloudflare API client (pkg/cfapi/client.go). */
module ResponseCache {
  import opened FleetTypes

  datatype Entry<+T> = Entry(data: T, expiresAt: Time)

  predicate Hit<T>(cache: map<string, Entry<T>>, path: string, now: Time) {
    path in cache && now < cache[path].expiresAt
  }

  function Insert<T>(cache: map<string, Entry<T>>, path: string, data: T, now: Time, ttl: nat): map<string, Entry<T>> {
    cache[path := Entry(data, now + ttl)]
  }

  datatype ApiError = ApiError(code: int, message: string)

  /** What comes back from one HTTP exchange. */
  datatype Reply =
    | Unreachable
    | Unreadable
    | Answer(httpStatus: int, body: Option<Envelope>)

  datatype Envelope = Envelope(success: bool, errors: seq<ApiError>, result: string)

  datatype Failure = RequestFailed | ReadFailed | RateLimited | ParseFailed | Refused(error: Option<ApiError>)

  datatype Result = Ok(data: string) | Err(failure: Failure)

  /** The common tail of all verbs. */
  function Decode(reply: Reply): Result {
    match reply
    case Unreachable => Err(RequestFailed)
    case Unreadable => Err(ReadFailed)
    case Answer(status, body) =>
      if status == 429 then Err(RateLimited)
      else match body
           case None => Err(ParseFailed)
           case Some(e) =>
             if e.success then Ok(e.result) else Err(Refused(if e.errors == [] then None else Some(e.errors[0])))
  }

  /** The only reply that yields data: an answer other than 429 whose envelope says success. */
  lemma DecodeSucceeds(reply: Reply, data: string)
    ensures Decode(reply) == Ok(data) <==>
      exists status, errors :: reply == Answer(status, Some(Envelope(true, errors, data))) && status != 429
  {
    if Decode(reply) == Ok(data) {
      assert reply == Answer(reply.httpStatus, Some(Envelope(true, reply.body.value.errors, data)));
    }
  }

  /** Which reply causes which failure: rate limiting hides the body, and a refusal names its first error. */
  lemma DecodeFails(reply: Reply)
    ensures Decode(reply) == Err(RequestFailed) <==> reply == Unreachable
    ensures Decode(reply) == Err(ReadFailed) <==> reply == Unreadable
    ensures Decode(reply) == Err(RateLimited) <==> reply.Answer? && reply.httpStatus == 429
    ensures Decode(reply) == Err(ParseFailed) <==> reply.Answer? && reply.httpStatus != 429 && reply.body == None
    ensures Decode(reply).Err? && Decode(reply).failure.Refused? <==>
      reply.Answer? && reply.httpStatus != 429 && reply.body.Some? && !reply.body.value.success
    ensures forall e :: Decode(reply) == Err(Refused(Some(e))) ==>
      reply.body.Some? && reply.body.value.errors != [] && e == reply.body.value.errors[0]
    ensures Decode(reply) == Err(Refused(None)) ==> reply.body.Some? && reply.body.value.errors == []
  {
  }

  class Client {
    var cache: map<string, Entry<string>>
    const ttl: nat

    constructor (ttl: Option<nat>)
      ensures cache == map[] && this.ttl == match ttl case None => 60 * SECOND case Some(t) => t
    {
      cache := map[];
      this.ttl := match ttl case None => 60 * SECOND case Some(t) => t;
    }

    /** `reply` is what the server would answer, `storedAt` the clock when the answer is cached. */
    method Get(path: string, now: Time, reply: Reply, storedAt: Time) returns (r: Result, ghost contacted: bool)
      requires now <= storedAt
      modifies this
      ensures contacted <==> !Hit(old(cache), path, now)
      ensures r == if contacted then Decode(reply) else Ok(old(cache)[path].data)
      ensures cache == if contacted && r.Ok? then Insert(old(cache), path, r.data, storedAt, ttl) else old(cache)
      ensures contacted && r.Ok? ==>
        path in cache && cache[path].data == r.data && forall t: Time :: Hit(cache, path, t) <==> t < storedAt + ttl
    {
      contacted := false;
      if path in cache && now < cache[path].expiresAt {
        return Ok(cache[path].data), false;
      }
      contacted := true;
      r := Exchange(reply);
      if r.Ok? {
        cache := cache[path := Entry(r.data, storedAt + ttl)];
      }
    }

    method Exchange(reply: Reply) returns (r: Result)
      ensures r == Decode(reply)
    {
      if reply.Unreachable? {
        return Err(RequestFailed);
      }
      if reply.Unreadable? {
        return Err(ReadFailed);
      }
      if reply.httpStatus == 429 {
        return Err(RateLimited);
      }
      if reply.body == None {
        return Err(ParseFailed);
      }
      var envelope := reply.body.value;
      if !envelope.success {
        if |envelope.errors| > 0 {
          return Err(Refused(Some(envelope.errors[0])));
        }
        return Err(Refused(None));
      }
      r := Ok(envelope.result);
    }

    /** PATCH, PUT and DELETE: a success forgets the path, so the next Get of it goes to the server. */
    method Write(path: string, reply: Reply) returns (r: Result)
      modifies this
      ensures r == Decode(reply)
      ensures cache == if r.Ok? then old(cache) - {path} else old(cache)
      ensures r.Ok? ==> forall now: Time :: !Hit(cache, path, now)
    {
      r := Exchange(reply);
      if r.Ok? {
        cache := cache - {path};
      }
    }

    /** POST neither reads nor forgets cached responses. */
    method Post(reply: Reply) returns (r: Result)
      ensures r == Decode(reply)
    {
      r := Exchange(reply);
    }

    method ClearCache()
      modifies this
      ensures forall path, now: Time :: !Hit(cache, path, now)
    {
      cache := map[];
    }
  }
}

/** Concurrent use of one client: gets interleave with writes, and the fetch, the store and the invalidation
    are separate steps. A response is identified by the version of the path that the server held. */
module CacheRuns {
  import opened FleetTypes
  import opened ResponseCache

  datatype Copy = Copy(version: nat, servedAt: Time, storedAt: Time)

  /** Server-side changes of paths, in order, by this client or by anyone else. */
  datatype Changes = Quiet | Then(before: Changes, path: string, at: Time)

  datatype State = State(
    clock: Time,
    server: map<string, nat>,
    changes: Changes,
    cache: map<string, Entry<Copy>>,
    fetched: map<nat, (string, Copy)>)

  datatype Step =
    | Tick(elapsed: nat)
    | Change(path: string)
    | Fetch(get: nat, path: string)
    | Store(get: nat)
    | Fail(get: nat)
    | Invalidate(path: string)
    | Clear

  const START := State(0, map[], Quiet, map[], map[])

  function VersionOf(server: map<string, nat>, path: string): nat {
    if path in server then server[path] else 0
  }

  function Apply(ttl: nat, s: State, step: Step): State {
    match step
    case Tick(elapsed) => s.(clock := s.clock + elapsed)
    case Change(path) =>
      s.(server := s.server[path := VersionOf(s.server, path) + 1], changes := Then(s.changes, path, s.clock))
    case Fetch(get, path) =>
      if get in s.fetched || Hit(s.cache, path, s.clock) then s
      else s.(fetched := s.fetched[get := (path, Copy(VersionOf(s.server, path), s.clock, s.clock))])
    case Store(get) =>
      if get !in s.fetched then s else
        var (path, copy) := s.fetched[get];
        s.(cache := Insert(s.cache, path, copy.(storedAt := s.clock), s.clock, ttl), fetched := s.fetched - {get})
    case Fail(get) => s.(fetched := s.fetched - {get})
    case Invalidate(path) => s.(cache := s.cache - {path})
    case Clear => s.(cache := map[])
  }

  function After(ttl: nat, s: State, steps: seq<Step>): State {
    if steps == [] then s else Apply(ttl, After(ttl, s, steps[..|steps| - 1]), steps[|steps| - 1])
  }

  lemma AfterOne(ttl: nat, s: State, step: Step)
    ensures After(ttl, s, [step]) == Apply(ttl, s, step)
  {
    var steps := [step];
    assert steps[..|steps| - 1] == [];
    assert After(ttl, s, []) == s;
  }

  /** Changes of the path before an instant, and up to it. */
  function Before(c: Changes, path: string, at: Time): nat {
    match c
    case Quiet => 0
    case Then(b, p, t) => Before(b, path, at) + if p == path && t < at then 1 else 0
  }

  function UpTo(c: Changes, path: string, at: Time): nat {
    match c
    case Quiet => 0
    case Then(b, p, t) => UpTo(b, path, at) + if p == path && t <= at then 1 else 0
  }

  /** The version was the server's at some moment of the instant. */
  predicate CurrentAt(c: Changes, path: string, version: nat, at: Time) {
    Before(c, path, at) <= version <= UpTo(c, path, at)
  }

  predicate Genuine(s: State, path: string, copy: Copy) {
    copy.servedAt <= copy.storedAt <= s.clock && CurrentAt(s.changes, path, copy.version, copy.servedAt)
  }

  ghost predicate Sound(ttl: nat, s: State) {
    && (forall path :: CurrentAt(s.changes, path, VersionOf(s.server, path), s.clock))
    && (forall path :: UpTo(s.changes, path, s.clock) == VersionOf(s.server, path))
    && (forall get <- s.fetched :: Genuine(s, s.fetched[get].0, s.fetched[get].1))
    && (forall path <- s.cache :: Genuine(s, path, s.cache[path].data) && s.cache[path].expiresAt == s.cache[path].data.storedAt + ttl)
  }

  /** Later changes do not affect what was current at an instant gone by, nor does the passing of time. */
  lemma {:induction false} UpToGrows(c: Changes, path: string, a: Time, b: Time)
    requires a <= b
    ensures Before(c, path, a) <= UpTo(c, path, a) <= UpTo(c, path, b)
  {
    match c
    case Quiet =>
    case Then(before, _, _) => UpToGrows(before, path, a, b);
  }

  ghost predicate PastOnly(c: Changes, clock: Time) {
    match c
    case Quiet => true
    case Then(b, _, t) => t <= clock && PastOnly(b, clock)
  }

  lemma {:induction false} PastCounts(c: Changes, path: string, clock: Time, later: Time)
    requires PastOnly(c, clock) && clock <= later
    ensures PastOnly(c, later) && UpTo(c, path, later) == UpTo(c, path, clock)
  {
    match c
    case Quiet =>
    case Then(b, _, _) => PastCounts(b, path, clock, later);
  }

  lemma SoundStep(ttl: nat, s: State, step: Step)
    requires Sound(ttl, s) && PastOnly(s.changes, s.clock)
    ensures Sound(ttl, Apply(ttl, s, step)) && PastOnly(Apply(ttl, s, step).changes, Apply(ttl, s, step).clock)
  {
    var after := Apply(ttl, s, step);
    forall path
      ensures UpTo(after.changes, path, after.clock) == VersionOf(after.server, path)
      ensures CurrentAt(after.changes, path, VersionOf(after.server, path), after.clock)
    {
      PastCounts(s.changes, path, s.clock, after.clock);
      UpToGrows(after.changes, path, after.clock, after.clock);
    }
    if s.changes == after.changes {
      PastCounts(s.changes, "", s.clock, after.clock);
    }
  }

  lemma {:induction false} SoundAlways(ttl: nat, steps: seq<Step>)
    ensures var s := After(ttl, START, steps); Sound(ttl, s) && PastOnly(s.changes, s.clock)
  {
    if steps == [] {
    } else {
      SoundAlways(ttl, steps[..|steps| - 1]);
      SoundStep(ttl, After(ttl, START, steps[..|steps| - 1]), steps[|steps| - 1]);
    }
  }

  /** A cached answer given at time t was the server's at the instant it was served, and was stored later
      than t - ttl: it can be older than the ttl only by the time its own fetch took. */
  lemma BoundedStaleness(ttl: nat, steps: seq<Step>, path: string)
    requires var s := After(ttl, START, steps); Hit(s.cache, path, s.clock)
    ensures var s := After(ttl, START, steps); var copy := s.cache[path].data;
      && CurrentAt(s.changes, path, copy.version, copy.servedAt)
      && copy.servedAt <= copy.storedAt <= s.clock < copy.storedAt + ttl
      && s.clock - copy.servedAt < ttl + (copy.storedAt - copy.servedAt)
  {
    SoundAlways(ttl, steps);
  }

  /** Hence an entry honours the ttl counted from the server's answer, whenever it is read, exactly when it
      was stored in the very instant it was served. */
  lemma TtlCountsFromStore(ttl: nat, steps: seq<Step>, path: string)
    requires ttl > 0 && path in After(ttl, START, steps).cache
    ensures var s := After(ttl, START, steps); var copy := s.cache[path].data;
      (forall now: Time :: Hit(s.cache, path, now) && copy.storedAt <= now ==> now - copy.servedAt < ttl)
      <==> copy.servedAt == copy.storedAt
  {
    SoundAlways(ttl, steps);
    var s := After(ttl, START, steps);
    var copy := s.cache[path].data;
    if copy.servedAt < copy.storedAt {
      var now: Time := copy.storedAt + ttl - 1;
      assert Hit(s.cache, path, now) && now - copy.servedAt >= ttl;
    }
  }

  // ---- reading one's own writes ----

  /** Nothing older than version `v` of the path is cached or on its way into the cache. */
  ghost predicate NothingOlder(s: State, path: string, v: nat) {
    && VersionOf(s.server, path) >= v
    && (path in s.cache ==> s.cache[path].data.version >= v)
    && (forall get <- s.fetched :: s.fetched[get].0 == path ==> s.fetched[get].1.version >= v)
  }

  lemma {:induction false} NothingOlderStays(ttl: nat, s: State, steps: seq<Step>, path: string, v: nat)
    requires NothingOlder(s, path, v)
    ensures NothingOlder(After(ttl, s, steps), path, v)
  {
    if steps == [] {
    } else {
      NothingOlderStays(ttl, s, steps[..|steps| - 1], path, v);
    }
  }

  /** No continuation answers a get of the path from the cache with something older than version `v`. */
  ghost predicate NeverStale(ttl: nat, s: State, path: string, v: nat) {
    forall steps: seq<Step> :: var t := After(ttl, s, steps); Hit(t.cache, path, t.clock) ==> t.cache[path].data.version >= v
  }

  /** After a write that left the server at version `v` has invalidated its path, cached reads of the path
      see the write for ever exactly when no older fetch of the path is still waiting to be stored. */
  lemma WriteIsSeenUnlessOvertaken(ttl: nat, s: State, path: string, v: nat)
    requires ttl > 0 && VersionOf(s.server, path) >= v
    ensures NeverStale(ttl, Apply(ttl, s, Invalidate(path)), path, v) <==>
            forall get <- s.fetched :: s.fetched[get].0 == path ==> s.fetched[get].1.version >= v
  {
    var after := Apply(ttl, s, Invalidate(path));
    if get :| get in s.fetched && s.fetched[get].0 == path && s.fetched[get].1.version < v {
      var steps := [Store(get)];
      AfterOne(ttl, after, Store(get));
      var t := After(ttl, after, steps);
      assert Hit(t.cache, path, t.clock) && t.cache[path].data.version < v;
    } else {
      forall steps: seq<Step>
        ensures var t := After(ttl, after, steps); Hit(t.cache, path, t.clock) ==> t.cache[path].data.version >= v
      {
        NothingOlderStays(ttl, after, steps, path, v);
      }
    }
  }

  // ---- two runs ----

  /** An answer that takes `latency` to arrive and is read at the last moment of its ttl. */
  function Slow(latency: nat, ttl: nat): seq<Step>
    requires ttl > 0
  {
    [Fetch(0, "p"), Tick(latency), Store(0), Tick(ttl - 1)]
  }

  lemma AfterMore(ttl: nat, s: State, steps: seq<Step>, step: Step)
    ensures After(ttl, s, steps + [step]) == Apply(ttl, After(ttl, s, steps), step)
  {
    assert (steps + [step])[..|steps + [step]| - 1] == steps;
  }

  lemma AfterFour(ttl: nat, s: State, a: Step, b: Step, c: Step, d: Step)
    ensures After(ttl, s, [a, b, c, d]) == Apply(ttl, Apply(ttl, Apply(ttl, Apply(ttl, s, a), b), c), d)
  {
    AfterOne(ttl, s, a);
    AfterMore(ttl, s, [a], b);
    AfterMore(ttl, s, [a] + [b], c);
    AfterMore(ttl, s, [a] + [b] + [c], d);
    assert [a, b, c, d] == [a] + [b] + [c] + [d];
  }

  /** With any latency at all, a run answers from the cache with something older than the ttl allows. */
  lemma SlowAnswerIsStale(ttl: nat, latency: nat)
    requires ttl > 0 && latency > 0
    ensures var s := After(ttl, START, Slow(latency, ttl));
      && Hit(s.cache, "p", s.clock) && s.cache["p"].data.servedAt < s.cache["p"].data.storedAt
      && s.clock - s.cache["p"].data.servedAt >= ttl
  {
    AfterFour(ttl, START, Fetch(0, "p"), Tick(latency), Store(0), Tick(ttl - 1));
  }

  /** A fetch, a write of the same path with its invalidation, and only then the fetched answer is stored. */
  const OVERTAKEN := [Fetch(0, "p"), Change("p"), Invalidate("p"), Store(0)]

  lemma OvertakenWriteIsLost(ttl: nat)
    requires ttl > 0
    ensures var s := After(ttl, START, OVERTAKEN);
      Hit(s.cache, "p", s.clock) && s.cache["p"].data.version < VersionOf(s.server, "p")
  {
    AfterFour(ttl, START, Fetch(0, "p"), Change("p"), Invalidate("p"), Store(0));
  }
}
