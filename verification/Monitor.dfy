/** The stale-node monitor (pkg/fleet/monitor.go). */
module StaleNodes {
  import opened FleetTypes
  import opened FleetStore
  import opened Events

  datatype Limits = Limits(degradedAfter: nat, offlineAfter: nat)

  /** The status the monitor writes for a listed row, if any. */
  function NewStatus(limits: Limits, row: Node, now: Time): Option<NodeStatus> {
    var elapsed := now - row.lastHeartbeat;
    if elapsed > limits.offlineAfter && row.status != Offline then Some(Offline)
    else if elapsed > limits.degradedAfter && row.status == Online then Some(Degraded)
    else None
  }

  function Checked(limits: Limits, row: Node, now: Time): Node {
    match NewStatus(limits, row, now)
    case Some(status) => row.(status := status)
    case None => row
  }

  /** The monitor decides on the row it listed and writes whatever the row has become meanwhile. */
  function ScanWrite(limits: Limits, db: Tables, id: NodeId, row: Node, now: Time): Tables {
    match NewStatus(limits, row, now)
    case Some(status) => SetStatus(db, id, status)
    case None => db
  }

  /** The node table after a check that nothing interrupted. */
  function CheckedNodes(limits: Limits, rows: map<NodeId, Node>, now: Time): map<NodeId, Node> {
    map id | id in rows :: Checked(limits, rows[id], now)
  }

  function Alarm(limits: Limits, id: NodeId, row: Node, now: Time): seq<Event> {
    match NewStatus(limits, row, now)
    case Some(Offline) => [Event("node_offline", id, row.(status := Offline), now)]
    case Some(status) => [Event("node_degraded", id, row.(status := status), now)]
    case None => []
  }

  /** The events a check offers, in listing order. */
  function Alarms(limits: Limits, rows: map<NodeId, Node>, order: seq<NodeId>, now: Time): seq<Event>
    requires forall id <- order :: id in rows
  {
    if order == [] then [] else
      var last := order[|order| - 1];
      Alarms(limits, rows, order[..|order| - 1], now) + Alarm(limits, last, rows[last], now)
  }

  function CheckedSoFar(limits: Limits, rows: map<NodeId, Node>, done: seq<NodeId>, now: Time): map<NodeId, Node> {
    map id | id in rows :: if id in done then Checked(limits, rows[id], now) else rows[id]
  }

  /** The table while a pass that nothing interrupts is under way. */
  function DuringCheck(limits: Limits, db: Tables, done: seq<NodeId>, now: Time): Tables {
    db.(nodes := CheckedSoFar(limits, db.nodes, done, now))
  }

  lemma CheckedMore(limits: Limits, rows: map<NodeId, Node>, order: seq<NodeId>, i: nat, now: Time)
    requires IsListing(rows, order) && i < |order|
    ensures order[i] in rows && CheckedSoFar(limits, rows, order[..i], now)[order[i]] == rows[order[i]]
    ensures CheckedSoFar(limits, rows, order[..i + 1], now)
         == CheckedSoFar(limits, rows, order[..i], now)[order[i] := Checked(limits, rows[order[i]], now)]
  {
    assert order[i] in order && order[i] !in order[..i];
    assert order[..i + 1] == order[..i] + [order[i]];
  }

  /** Writing a row that is still as listed checks it. */
  lemma WriteChecks(limits: Limits, db: Tables, id: NodeId, row: Node, now: Time)
    requires id in db.nodes && db.nodes[id] == row
    ensures ScanWrite(limits, db, id, row, now) == db.(nodes := db.nodes[id := Checked(limits, row, now)])
  {
    assert db.nodes == db.nodes[id := row];
  }

  lemma OneMoreChecked(limits: Limits, db: Tables, order: seq<NodeId>, i: nat, now: Time)
    requires IsListing(db.nodes, order) && i < |order|
    ensures order[i] in db.nodes
    ensures ScanWrite(limits, DuringCheck(limits, db, order[..i], now), order[i], db.nodes[order[i]], now)
         == DuringCheck(limits, db, order[..i + 1], now)
  {
    CheckedMore(limits, db.nodes, order, i, now);
    WriteChecks(limits, DuringCheck(limits, db, order[..i], now), order[i], db.nodes[order[i]], now);
  }

  lemma AllChecked(limits: Limits, db: Tables, order: seq<NodeId>, now: Time)
    requires IsListing(db.nodes, order)
    ensures DuringCheck(limits, db, order, now) == db.(nodes := CheckedNodes(limits, db.nodes, now))
    ensures DuringCheck(limits, db, [], now) == db
  {
    assert CheckedSoFar(limits, db.nodes, order, now) == CheckedNodes(limits, db.nodes, now);
    assert CheckedSoFar(limits, db.nodes, [], now) == db.nodes;
  }

  lemma OneMoreAlarm(limits: Limits, rows: map<NodeId, Node>, order: seq<NodeId>, i: nat, now: Time,
                     queue: seq<Event>, capacity: nat)
    requires (forall id <- order :: id in rows) && i < |order|
    ensures OfferAll(queue, capacity, Alarms(limits, rows, order[..i + 1], now))
         == OfferAll(OfferAll(queue, capacity, Alarms(limits, rows, order[..i], now)), capacity,
                     Alarm(limits, order[i], rows[order[i]], now))
  {
    assert order[..i + 1][..i] == order[..i];
    OfferAllSplit(queue, capacity, Alarms(limits, rows, order[..i], now), Alarm(limits, order[i], rows[order[i]], now));
  }

  class Monitor {
    const store: SQLiteStore
    const limits: Limits
    const events: Channel

    /** Zero durations select the defaults of 90 and 180 seconds. */
    constructor (store: SQLiteStore, degradedAfter: nat, offlineAfter: nat, events: Channel)
      ensures this.store == store && this.events == events
      ensures limits == Limits(if degradedAfter == 0 then 90 * SECOND else degradedAfter,
                               if offlineAfter == 0 then 180 * SECOND else offlineAfter)
    {
      this.store := store;
      this.events := events;
      limits := Limits(if degradedAfter == 0 then 90 * SECOND else degradedAfter,
                       if offlineAfter == 0 then 180 * SECOND else offlineAfter);
    }

    /** The loop body of a pass: one listed row, which may have changed or gone since. */
    method CheckRow(id: NodeId, row: Node, now: Time)
      modifies store`nodes, events
      ensures store.Db() == ScanWrite(limits, old(store.Db()), id, row, now)
      ensures events.queue == OfferAll(old(events.queue), events.capacity, Alarm(limits, id, row, now))
    {
      match NewStatus(limits, row, now) {
        case None =>
        case Some(status) =>
          store.UpdateNodeStatus(id, status);
          var e := Event(if status == Offline then "node_offline" else "node_degraded", id, row.(status := status), now);
          events.Send(e);
          assert [e] == Alarm(limits, id, row, now) && [e][..0] == [];
      }
    }

    method CheckNext(order: seq<NodeId>, i: nat, rows: map<NodeId, Node>, now: Time, ghost db: Tables, ghost queue: seq<Event>)
      requires db.nodes == rows && IsListing(rows, order) && i < |order|
      requires store.Db() == DuringCheck(limits, db, order[..i], now)
      requires events.queue == OfferAll(queue, events.capacity, Alarms(limits, rows, order[..i], now))
      modifies store`nodes, events
      ensures store.Db() == DuringCheck(limits, db, order[..i + 1], now)
      ensures events.queue == OfferAll(queue, events.capacity, Alarms(limits, rows, order[..i + 1], now))
    {
      OneMoreChecked(limits, db, order, i, now);
      OneMoreAlarm(limits, rows, order, i, now, queue, events.capacity);
      CheckRow(order[i], rows[order[i]], now);
    }

    /** One pass over the rows as the query listed them, all statuses being written without interruption. */
    method Check(order: seq<NodeId>, now: Time)
      requires IsListing(store.nodes, order)
      modifies store`nodes, events
      ensures store.Db() == old(store.Db()).(nodes := CheckedNodes(limits, old(store.nodes), now))
      ensures events.queue == OfferAll(old(events.queue), events.capacity, Alarms(limits, old(store.nodes), order, now))
    {
      var rows := store.nodes;
      ghost var db := store.Db();
      AllChecked(limits, db, order, now);
      for i := 0 to |order|
        invariant store.Db() == DuringCheck(limits, db, order[..i], now)
        invariant events.queue == OfferAll(old(events.queue), events.capacity, Alarms(limits, rows, order[..i], now))
      {
        CheckNext(order, i, rows, now, db, old(events.queue));
      }
      assert order[..|order|] == order;
    }
  }

  /** Online before Degraded before Offline. */
  function Badness(status: NodeStatus): int {
    match status
    case Online => 0
    case Degraded => 1
    case Offline => 2
    case OtherStatus(_) => 1
  }

  /** A check leaves no node over a limit with too good a status, improves none, changes nothing but
      statuses, and has nothing left to do when repeated at the same time. */
  lemma CheckSettles(limits: Limits, rows: map<NodeId, Node>, now: Time)
    ensures var after := CheckedNodes(limits, rows, now);
      && after.Keys == rows.Keys
      && CheckedNodes(limits, after, now) == after
      && forall id <- rows ::
          var elapsed := now - rows[id].lastHeartbeat;
          && (elapsed > limits.degradedAfter ==> after[id].status != Online)
          && (elapsed > limits.offlineAfter ==> after[id].status == Offline)
          && Badness(after[id].status) >= Badness(rows[id].status)
          && after[id] == rows[id].(status := after[id].status)
          && (after[id] != rows[id] ==> elapsed > limits.degradedAfter || elapsed > limits.offlineAfter)
  {
    var after := CheckedNodes(limits, rows, now);
    assert forall id <- rows :: Checked(limits, after[id], now) == after[id];
  }

  /** The three zones of elapsed time: beyond the offline limit every node ends offline, in the zone before it only
      online nodes are degraded, and below the limits nothing changes. */
  lemma CheckedByZone(limits: Limits, rows: map<NodeId, Node>, now: Time, id: NodeId)
    requires id in rows
    ensures var elapsed, before, after := now - rows[id].lastHeartbeat, rows[id].status, CheckedNodes(limits, rows, now)[id].status;
      && (elapsed > limits.offlineAfter ==> after == Offline)
      && (limits.degradedAfter < elapsed <= limits.offlineAfter ==> after == if before == Online then Degraded else before)
      && (elapsed <= limits.degradedAfter && elapsed <= limits.offlineAfter ==> after == before)
  {
  }

  /** The listed nodes whose status a check changes, in listing order. */
  function Changed(limits: Limits, rows: map<NodeId, Node>, order: seq<NodeId>, now: Time): seq<NodeId>
    requires forall id <- order :: id in rows
  {
    if order == [] then [] else
      var last := order[|order| - 1];
      Changed(limits, rows, order[..|order| - 1], now)
      + if CheckedNodes(limits, rows, now)[last].status != rows[last].status then [last] else []
  }

  function ChangeEvent(id: NodeId, after: Node, now: Time): Event {
    Event(if after.status == Offline then "node_offline" else "node_degraded", id, after, now)
  }

  lemma AlarmOnlyOnChange(limits: Limits, id: NodeId, row: Node, now: Time)
    ensures var after := Checked(limits, row, now);
      Alarm(limits, id, row, now) == if after.status == row.status then [] else [ChangeEvent(id, after, now)]
  {
  }

  /** A check announces exactly the status changes, once each, with the rows as changed, in listing order. */
  lemma {:induction false} AlarmsTellChanges(limits: Limits, rows: map<NodeId, Node>, order: seq<NodeId>, now: Time)
    requires forall id <- order :: id in rows
    ensures var changed, alarms := Changed(limits, rows, order, now), Alarms(limits, rows, order, now);
      && |alarms| == |changed|
      && forall k :: 0 <= k < |changed| ==>
           changed[k] in rows && alarms[k] == ChangeEvent(changed[k], CheckedNodes(limits, rows, now)[changed[k]], now)
  {
    if order == [] {
    } else {
      var last := order[|order| - 1];
      AlarmsTellChanges(limits, rows, order[..|order| - 1], now);
      AlarmOnlyOnChange(limits, last, rows[last], now);
    }
  }

  /** No check alarms on an online node whose accepted heartbeat is at most `gap` old. */
  ghost predicate Quiet(limits: Limits, gap: nat) {
    forall row: Node, beat: Time, now: Time
      | row.status == Online && row.lastHeartbeat == Stored(beat) && beat <= now <= beat + gap ::
        NewStatus(limits, row, now).None?
  }

  /** Heartbeats lose up to a second (less a nanosecond) in the table, and exactly that much must be left
      below the smaller limit for a timely node never to raise a false alarm. */
  lemma TruncationMargin(limits: Limits, gap: nat)
    ensures Quiet(limits, gap) <==>
            gap + SECOND - 1 <= limits.degradedAfter && gap + SECOND - 1 <= limits.offlineAfter
  {
    if Quiet(limits, gap) {
      var beat: Time := SECOND - 1;
      var row := Node("n", Server, "", 0, 0, Stored(beat), Online, 0, 0, 0, Unknown);
      assert Stored(beat) == 0;
      assert NewStatus(limits, row, beat + gap).None?;
    }
  }
}
