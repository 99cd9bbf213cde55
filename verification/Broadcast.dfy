/** A bounded queue whose senders never block: a put into a full buffer is lost. */
module LossyQueues {
  import opened FleetTypes
  import Events

  datatype Op<T> = Put(e: T) | Take

  /** What the queue holds after these operations; taking from an empty queue does nothing. */
  function Buffer<T>(capacity: nat, ops: seq<Op<T>>): (r: seq<T>)
    ensures |r| <= capacity
  {
    if ops == [] then [] else
      var before := Buffer(capacity, ops[..|ops| - 1]);
      match ops[|ops| - 1]
      case Put(e) => Events.Offer(before, capacity, e)
      case Take => if before == [] then [] else before[1..]
  }

  function Taken<T>(capacity: nat, ops: seq<Op<T>>): seq<T> {
    if ops == [] then [] else
      var init := ops[..|ops| - 1];
      Taken(capacity, init)
      + if ops[|ops| - 1].Take? && Buffer(capacity, init) != [] then [Buffer(capacity, init)[0]] else []
  }

  function Offered<T>(ops: seq<Op<T>>): seq<T> {
    if ops == [] then [] else
      Offered(ops[..|ops| - 1]) + if ops[|ops| - 1].Put? then [ops[|ops| - 1].e] else []
  }

  /** The offered elements that met a buffer with room. */
  function Accepted<T>(capacity: nat, ops: seq<Op<T>>): seq<T> {
    if ops == [] then [] else
      var init := ops[..|ops| - 1];
      Accepted(capacity, init)
      + if ops[|ops| - 1].Put? && |Buffer(capacity, init)| < capacity then [ops[|ops| - 1].e] else []
  }

  /** `a` is `b` with some elements left out. */
  predicate Subsequence<T(==)>(a: seq<T>, b: seq<T>) {
    if b == [] then a == []
    else Subsequence(a, b[..|b| - 1]) || (a != [] && a[|a| - 1] == b[|b| - 1] && Subsequence(a[..|a| - 1], b[..|b| - 1]))
  }

  /** What came out and what is still inside are the accepted elements in the order offered. */
  lemma {:induction false} FirstInFirstOut<T>(capacity: nat, ops: seq<Op<T>>)
    ensures Taken(capacity, ops) + Buffer(capacity, ops) == Accepted(capacity, ops)
  {
    if ops == [] {
    } else {
      var init := ops[..|ops| - 1];
      FirstInFirstOut(capacity, init);
      var taken, before := Taken(capacity, init), Buffer(capacity, init);
      match ops[|ops| - 1]
      case Put(e) =>
        assert Taken(capacity, ops) == taken;
        assert taken + (before + [e]) == (taken + before) + [e];
      case Take =>
        assert Accepted(capacity, ops) == Accepted(capacity, init);
        if before != [] {
          assert taken + before == (taken + [before[0]]) + before[1..];
        }
    }
  }

  lemma SubsequenceGrows<T>(a: seq<T>, b: seq<T>, e: T)
    requires Subsequence(a, b)
    ensures Subsequence(a, b + [e]) && Subsequence(a + [e], b + [e])
  {
    assert (b + [e])[..|b + [e]| - 1] == b;
    assert (a + [e])[..|a + [e]| - 1] == a;
  }

  lemma {:induction false} AcceptedInOrder<T>(capacity: nat, ops: seq<Op<T>>)
    ensures Subsequence(Accepted(capacity, ops), Offered(ops))
  {
    if ops == [] {
    } else {
      var init := ops[..|ops| - 1];
      AcceptedInOrder(capacity, init);
      assert Accepted(capacity, init) + [] == Accepted(capacity, init) && Offered(init) + [] == Offered(init);
      if ops[|ops| - 1].Put? {
        SubsequenceGrows(Accepted(capacity, init), Offered(init), ops[|ops| - 1].e);
      }
    }
  }

  lemma {:induction false} AcceptedLength<T>(capacity: nat, ops: seq<Op<T>>)
    ensures |Accepted(capacity, ops)| <= |Offered(ops)|
  {
    if ops == [] {
    } else {
      AcceptedLength(capacity, ops[..|ops| - 1]);
    }
  }

  /** No put met a full buffer. */
  predicate AlwaysRoom<T>(capacity: nat, ops: seq<Op<T>>) {
    ops != [] ==>
      var init := ops[..|ops| - 1];
      AlwaysRoom(capacity, init) && (ops[|ops| - 1].Put? ==> |Buffer(capacity, init)| < capacity)
  }

  /** Elements are lost exactly when some put met a full buffer. */
  lemma {:induction false} LossNeedsFullBuffer<T>(capacity: nat, ops: seq<Op<T>>)
    ensures Accepted(capacity, ops) == Offered(ops) <==> AlwaysRoom(capacity, ops)
  {
    if ops == [] {
    } else {
      var init := ops[..|ops| - 1];
      LossNeedsFullBuffer(capacity, init);
      AcceptedLength(capacity, init);
      AcceptedLength(capacity, ops);
    }
  }

  lemma OneMore<T>(capacity: nat, ops: seq<Op<T>>, op: Op<T>)
    ensures Buffer(capacity, ops + [op])
         == match op
            case Put(e) => Events.Offer(Buffer(capacity, ops), capacity, e)
            case Take => if Buffer(capacity, ops) == [] then [] else Buffer(capacity, ops)[1..]
    ensures Taken(capacity, ops + [op])
         == Taken(capacity, ops) + if op.Take? && Buffer(capacity, ops) != [] then [Buffer(capacity, ops)[0]] else []
    ensures Offered(ops + [op]) == Offered(ops) + if op.Put? then [op.e] else []
  {
    assert (ops + [op])[..|ops + [op]| - 1] == ops;
  }
}

/** The fan-out of fleet events to the SSE clients (internal/dashboard/fleet_handler.go). The broadcaster takes
    one event from the shared channel and, holding the lock on the client set, offers it to each client in the
    map's arbitrary order; clients read their buffers at any time, also in between. */
module Broadcasts {
  import opened FleetTypes
  import opened Events
  import opened LossyQueues

  type ClientId = nat

  const CHANNEL_CAPACITY: nat := 256
  const CLIENT_CAPACITY: nat := 32

  /** `ops` is the history of the buffer and `since` the number of events broadcast before the client
      registered; no step reads them. */
  datatype Client = Client(buffer: seq<Event>, written: seq<Event>, ops: seq<Op<Event>>, since: nat)

  /** The event being fanned out and the clients still to be offered it. */
  datatype Round = Resting | Sending(event: Event, left: set<ClientId>)

  datatype State = State(channel: seq<Event>, round: Round, clients: map<ClientId, Client>, ops: seq<Op<Event>>)

  datatype Step =
    | Publish(event: Event)
    | TakeEvent
    | Deliver(client: ClientId)
    | EndRound
    | Register(client: ClientId)
    | Unregister(client: ClientId)
    | Write(client: ClientId)

  const START := State([], Resting, map[], [])

  /** Registering and leaving wait for the lock that a round holds. */
  predicate Enabled(s: State, step: Step) {
    match step
    case Publish(_) => true
    case TakeEvent => s.round.Resting? && s.channel != []
    case Deliver(id) => s.round.Sending? && id in s.round.left && id in s.clients
    case EndRound => s.round.Sending? && s.round.left == {}
    case Register(id) => s.round.Resting? && id !in s.clients
    case Unregister(id) => s.round.Resting? && id in s.clients
    case Write(id) => id in s.clients && s.clients[id].buffer != []
  }

  /** The events broadcast so far. */
  function Broadcast(s: State): seq<Event> {
    Taken(CHANNEL_CAPACITY, s.ops)
  }

  function Offering(c: Client, e: Event): Client {
    c.(buffer := Offer(c.buffer, CLIENT_CAPACITY, e), ops := c.ops + [Put(e)])
  }

  function Writing(c: Client): Client
    requires c.buffer != []
  {
    c.(buffer := c.buffer[1..], written := c.written + [c.buffer[0]], ops := c.ops + [Take])
  }

  function Apply(s: State, step: Step): State {
    if !Enabled(s, step) then s else
      match step
      case Publish(e) => s.(channel := Offer(s.channel, CHANNEL_CAPACITY, e), ops := s.ops + [Put(e)])
      case TakeEvent =>
        s.(channel := s.channel[1..], round := Sending(s.channel[0], s.clients.Keys), ops := s.ops + [Take])
      case Deliver(id) =>
        s.(clients := s.clients[id := Offering(s.clients[id], s.round.event)],
           round := s.round.(left := s.round.left - {id}))
      case EndRound => s.(round := Resting)
      case Register(id) => s.(clients := s.clients[id := Client.Client([], [], [], |Broadcast(s)|)])
      case Unregister(id) => s.(clients := s.clients - {id})
      case Write(id) => s.(clients := s.clients[id := Writing(s.clients[id])])
  }

  function After(s0: State, steps: seq<Step>): State {
    if steps == [] then s0 else Apply(After(s0, steps[..|steps| - 1]), steps[|steps| - 1])
  }

  // ---- every buffer is a lossy queue, and the queues are chained ----

  /** The event of the running round, if the client has not been offered it yet. */
  function Due(r: Round, id: ClientId): seq<Event> {
    if r.Sending? && id in r.left then [r.event] else []
  }

  ghost predicate ClientOk(c: Client, broadcast: seq<Event>, due: seq<Event>) {
    && c.buffer == Buffer(CLIENT_CAPACITY, c.ops)
    && c.written == Taken(CLIENT_CAPACITY, c.ops)
    && c.since <= |broadcast|
    && Offered(c.ops) + due == broadcast[c.since..]
  }

  ghost predicate ClientIs(s: State, id: ClientId) {
    id in s.clients ==> ClientOk(s.clients[id], Broadcast(s), Due(s.round, id))
  }

  ghost predicate ChannelIs(s: State) {
    && s.channel == Buffer(CHANNEL_CAPACITY, s.ops)
    && (s.round.Sending? ==> s.round.left <= s.clients.Keys)
  }

  lemma ChannelStep(s: State, step: Step)
    requires ChannelIs(s)
    ensures ChannelIs(Apply(s, step))
  {
    match step
    case Publish(e) => OneMore(CHANNEL_CAPACITY, s.ops, Put(e));
    case TakeEvent => OneMore(CHANNEL_CAPACITY, s.ops, Take);
    case _ =>
  }

  lemma ClientOwes(c: Client, broadcast: seq<Event>, e: Event)
    requires ClientOk(c, broadcast, [])
    ensures ClientOk(c, broadcast + [e], [e])
  {
    assert (broadcast + [e])[c.since..] == broadcast[c.since..] + [e];
  }

  lemma ClientIsOffered(c: Client, broadcast: seq<Event>, e: Event)
    requires ClientOk(c, broadcast, [e])
    ensures ClientOk(Offering(c, e), broadcast, [])
  {
    OneMore(CLIENT_CAPACITY, c.ops, Put(e));
  }

  lemma ClientWrites(c: Client, broadcast: seq<Event>, due: seq<Event>)
    requires ClientOk(c, broadcast, due) && c.buffer != []
    ensures ClientOk(Writing(c), broadcast, due)
  {
    OneMore(CLIENT_CAPACITY, c.ops, Take);
  }

  lemma ClientTake(s: State, id: ClientId)
    requires ChannelIs(s) && ClientIs(s, id) && id in s.clients && Enabled(s, TakeEvent)
    ensures ClientIs(Apply(s, TakeEvent), id)
  {
    OneMore(CHANNEL_CAPACITY, s.ops, Take);
    ClientOwes(s.clients[id], Broadcast(s), s.channel[0]);
  }

  lemma ClientDeliver(s: State, k: ClientId, id: ClientId)
    requires ClientIs(s, id) && id in s.clients && Enabled(s, Deliver(k))
    ensures ClientIs(Apply(s, Deliver(k)), id)
  {
    if k == id {
      ClientIsOffered(s.clients[id], Broadcast(s), s.round.event);
    }
  }

  lemma ClientStep(s: State, step: Step, id: ClientId)
    requires ChannelIs(s) && ClientIs(s, id)
    ensures ClientIs(Apply(s, step), id)
  {
    if id in s.clients && Enabled(s, step) {
      var c := s.clients[id];
      match step
      case Publish(e) => OneMore(CHANNEL_CAPACITY, s.ops, Put(e));
      case TakeEvent => ClientTake(s, id);
      case Deliver(k) => ClientDeliver(s, k, id);
      case Write(k) => if k == id { ClientWrites(c, Broadcast(s), Due(s.round, id)); }
      case _ =>
    }
  }

  lemma {:induction false} QueuesAlways(steps: seq<Step>, id: ClientId)
    ensures ChannelIs(After(START, steps)) && ClientIs(After(START, steps), id)
  {
    if steps == [] {
    } else {
      var s := After(START, steps[..|steps| - 1]);
      QueuesAlways(steps[..|steps| - 1], id);
      ChannelStep(s, steps[|steps| - 1]);
      ClientStep(s, steps[|steps| - 1], id);
    }
  }

  /** The events published in a run. */
  function Published(steps: seq<Step>): seq<Event> {
    if steps == [] then [] else
      Published(steps[..|steps| - 1]) + if steps[|steps| - 1].Publish? then [steps[|steps| - 1].event] else []
  }

  lemma {:induction false} PublishedIsOffered(steps: seq<Step>)
    ensures Offered(After(START, steps).ops) == Published(steps)
  {
    if steps == [] {
    } else {
      var s := After(START, steps[..|steps| - 1]);
      PublishedIsOffered(steps[..|steps| - 1]);
      match steps[|steps| - 1]
      case Publish(e) => OneMore(CHANNEL_CAPACITY, s.ops, Put(e));
      case TakeEvent => OneMore(CHANNEL_CAPACITY, s.ops, Take);
      case _ =>
    }
  }

  lemma {:induction false} PrefixIsSubsequence<T>(a: seq<T>, rest: seq<T>, b: seq<T>)
    requires Subsequence(a + rest, b)
    ensures Subsequence(a, b)
    decreases |b|
  {
    if b == [] {
    } else if rest == [] {
      assert a + rest == a;
    } else {
      var init := b[..|b| - 1];
      if Subsequence(a + rest, init) {
        PrefixIsSubsequence(a, rest, init);
      } else {
        assert (a + rest)[..|a + rest| - 1] == a + rest[..|rest| - 1];
        PrefixIsSubsequence(a, rest[..|rest| - 1], init);
      }
    }
  }

  /** In every run, what a client was sent, together with its buffer, keeps the order of the events offered
      to it: those broadcast since it registered, less the one of a running round. The events broadcast,
      together with the channel, keep the order in which they were published. */
  lemma {:induction false} ClientsSeeInOrder(steps: seq<Step>, id: ClientId)
    requires id in After(START, steps).clients
    ensures var s := After(START, steps); var c := s.clients[id];
      && c.since <= |Broadcast(s)|
      && Subsequence(c.written + c.buffer, Offered(c.ops))
      && Offered(c.ops) + Due(s.round, id) == Broadcast(s)[c.since..]
      && Subsequence(Broadcast(s) + s.channel, Published(steps))
      && Subsequence(Broadcast(s), Published(steps))
  {
    var s := After(START, steps);
    var c := s.clients[id];
    QueuesAlways(steps, id);
    PublishedIsOffered(steps);
    FirstInFirstOut(CLIENT_CAPACITY, c.ops);
    AcceptedInOrder(CLIENT_CAPACITY, c.ops);
    FirstInFirstOut(CHANNEL_CAPACITY, s.ops);
    AcceptedInOrder(CHANNEL_CAPACITY, s.ops);
    PrefixIsSubsequence(Broadcast(s), s.channel, Published(steps));
  }

  /** A client misses nothing that was broadcast to it exactly when its buffer had room each time, and
      nothing published fails to be broadcast or queued exactly when the channel had room each time. */
  lemma EventsAreMissedOnlyWhenFull(steps: seq<Step>, id: ClientId)
    requires id in After(START, steps).clients
    ensures var s := After(START, steps); var c := s.clients[id];
      && c.since <= |Broadcast(s)|
      && (c.written + c.buffer + Due(s.round, id) == Broadcast(s)[c.since..] <==> AlwaysRoom(CLIENT_CAPACITY, c.ops))
      && (Broadcast(s) + s.channel == Published(steps) <==> AlwaysRoom(CHANNEL_CAPACITY, s.ops))
  {
    var s := After(START, steps);
    var c := s.clients[id];
    QueuesAlways(steps, id);
    PublishedIsOffered(steps);
    FirstInFirstOut(CLIENT_CAPACITY, c.ops);
    LossNeedsFullBuffer(CLIENT_CAPACITY, c.ops);
    FirstInFirstOut(CHANNEL_CAPACITY, s.ops);
    LossNeedsFullBuffer(CHANNEL_CAPACITY, s.ops);
    SameTail(c.written + c.buffer, Offered(c.ops), Due(s.round, id));
  }

  lemma SameTail<T>(a: seq<T>, b: seq<T>, tail: seq<T>)
    ensures a + tail == b + tail <==> a == b
  {
    if a + tail == b + tail {
      assert |a| == |b|;
      assert a == (a + tail)[..|a|];
      assert b == (b + tail)[..|b|];
    }
  }

  // ---- clients do not affect each other ----

  /** The system as if `id` were the only client. */
  function Alone(s: State, id: ClientId): State {
    s.(clients := map k | k in s.clients && k == id :: s.clients[k],
       round := if s.round.Sending? then s.round.(left := s.round.left * {id}) else s.round)
  }

  /** A step of another client. */
  predicate Foreign(step: Step, id: ClientId) {
    (step.Deliver? || step.Register? || step.Unregister? || step.Write?) && step.client != id
  }

  /** The steps that were taken, without those of other clients. */
  function Own(s0: State, steps: seq<Step>, id: ClientId): seq<Step> {
    if steps == [] then [] else
      var init, step := steps[..|steps| - 1], steps[|steps| - 1];
      Own(s0, init, id) + if Enabled(After(s0, init), step) && !Foreign(step, id) then [step] else []
  }

  lemma AloneStep(s: State, step: Step, id: ClientId)
    requires Enabled(s, step)
    ensures Alone(Apply(s, step), id) == if Foreign(step, id) then Alone(s, id) else Apply(Alone(s, id), step)
  {
    match step
    case TakeEvent => assert s.clients.Keys * {id} == Alone(s, id).clients.Keys;
    case Deliver(k) =>
      assert (s.round.left - {k}) * {id} == if k == id then s.round.left * {id} - {k} else s.round.left * {id};
      assert Alone(Apply(s, step), id).clients == if k == id then Apply(Alone(s, id), step).clients else Alone(s, id).clients;
    case _ =>
  }

  /** A client sees what it would see if all others never existed, however slow they are. */
  lemma {:induction false} OthersDoNotMatter(s0: State, steps: seq<Step>, id: ClientId)
    ensures After(Alone(s0, id), Own(s0, steps, id)) == Alone(After(s0, steps), id)
  {
    if steps == [] {
    } else {
      var init, step := steps[..|steps| - 1], steps[|steps| - 1];
      OthersDoNotMatter(s0, init, id);
      assert Own(s0, init, id) + [] == Own(s0, init, id);
      var s := After(s0, init);
      if Enabled(s, step) {
        AloneStep(s, step, id);
        var own := Own(s0, init, id);
        assert (own + [step])[..|own + [step]| - 1] == own;
      }
    }
  }

  // ---- one round ----

  /** Delivering to some clients, in any order. */
  function Deliveries(order: seq<ClientId>): seq<Step> {
    seq(|order|, i requires 0 <= i < |order| => Deliver(order[i]))
  }

  predicate Distinct(order: seq<ClientId>) {
    forall i, j :: 0 <= i < j < |order| ==> order[i] != order[j]
  }

  lemma DeliverOne(s: State, id: ClientId)
    requires Enabled(s, Deliver(id))
    ensures var t := Apply(s, Deliver(id));
      && t.channel == s.channel && t.round == Sending(s.round.event, s.round.left - {id})
      && t.clients == s.clients[id := Offering(s.clients[id], s.round.event)]
  {
  }

  /** Some clients have been offered the event once, the others not yet. */
  ghost predicate Reached(s: State, t: State, order: seq<ClientId>)
    requires s.round.Sending?
  {
    && t.channel == s.channel && t.round.Sending? && t.round.event == s.round.event && t.clients.Keys == s.clients.Keys
    && (forall id :: id in t.round.left <==> id in s.round.left && id !in order)
    && (forall id <- s.clients :: t.clients[id] == if id in order then Offering(s.clients[id], s.round.event) else s.clients[id])
  }

  lemma ReachedMore(s: State, t: State, order: seq<ClientId>, id: ClientId)
    requires s.round.Sending? && Reached(s, t, order) && id in s.round.left && id in s.clients && id !in order
    ensures Reached(s, Apply(t, Deliver(id)), order + [id])
  {
    DeliverOne(t, id);
  }

  /** Deliveries reach the clients they name. */
  lemma {:induction false} RoundReaches(s: State, order: seq<ClientId>)
    requires s.round.Sending? && s.round.left <= s.clients.Keys && Distinct(order)
    requires forall id <- order :: id in s.round.left
    ensures Reached(s, After(s, Deliveries(order)), order)
  {
    if order == [] {
    } else {
      var init, last := order[..|order| - 1], order[|order| - 1];
      RoundReaches(s, init);
      assert Deliveries(order)[..|order| - 1] == Deliveries(init);
      assert last in order && order == init + [last];
      ReachedMore(s, After(s, Deliveries(init)), init, last);
    }
  }

  lemma {:induction false} AfterSplit(s: State, first: seq<Step>, second: seq<Step>)
    ensures After(s, first + second) == After(After(s, first), second)
    decreases |second|
  {
    if second == [] {
      assert first + second == first;
    } else {
      assert (first + second)[..|first + second| - 1] == first + second[..|second| - 1];
      AfterSplit(s, first, second[..|second| - 1]);
    }
  }

  lemma AfterOne(s: State, step: Step)
    ensures After(s, [step]) == Apply(s, step)
  {
    assert [step][..0] == [];
  }

  function WholeRound(order: seq<ClientId>): seq<Step> {
    [TakeEvent] + (Deliveries(order) + [EndRound])
  }

  /** A round nothing interrupts is the broadcaster's loop body, whatever the order of the clients. */
  lemma RoundIsBroadcast(s: State, order: seq<ClientId>)
    requires s.round.Resting? && s.channel != [] && Distinct(order) && (set id | id in order) == s.clients.Keys
    ensures var t := After(s, WholeRound(order));
      && t.round == Resting && t.channel == s.channel[1..] && t.clients.Keys == s.clients.Keys
      && forall id <- s.clients :: t.clients[id] == Offering(s.clients[id], s.channel[0])
  {
    AfterSplit(s, [TakeEvent], Deliveries(order) + [EndRound]);
    AfterOne(s, TakeEvent);
    var taken := Apply(s, TakeEvent);
    assert forall id <- order :: id in (set k | k in order);
    RoundReaches(taken, order);
    var done := After(taken, Deliveries(order));
    AfterSplit(taken, Deliveries(order), [EndRound]);
    AfterOne(done, EndRound);
    assert forall id <- s.clients :: id in (set k | k in order);
    assert done.round.left == {};
  }

  class Broadcaster {
    const events: Channel
    var clients: map<ClientId, seq<Event>>

    constructor (events: Channel)
      ensures this.events == events && clients == map[]
    {
      this.events := events;
      clients := map[];
    }

    method Register(id: ClientId)
      requires id !in clients
      modifies `clients
      ensures clients == old(clients)[id := []]
    {
      clients := clients[id := []];
    }

    method Unregister(id: ClientId)
      modifies `clients
      ensures clients == old(clients) - {id}
    {
      clients := clients - {id};
    }

    /** One turn of the broadcaster's loop. */
    method BroadcastOne() returns (e: Event)
      requires events.queue != []
      modifies `clients, events
      ensures e == old(events.queue)[0] && events.queue == old(events.queue)[1..]
      ensures clients == map id | id in old(clients) :: Offer(old(clients)[id], CLIENT_CAPACITY, e)
    {
      e := events.queue[0];
      events.queue := events.queue[1..];
      var left := clients.Keys;
      while left != {}
        invariant left <= clients.Keys == old(clients).Keys
        invariant events.queue == old(events.queue)[1..]
        invariant forall id <- left :: clients[id] == old(clients)[id]
        invariant forall id <- clients :: id !in left ==> clients[id] == Offer(old(clients)[id], CLIENT_CAPACITY, e)
        decreases left
      {
        var id :| id in left;
        left := left - {id};
        if |clients[id]| < CLIENT_CAPACITY {
          clients := clients[id := clients[id] + [e]];
        }
      }
    }
  }
}
