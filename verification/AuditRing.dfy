/** The audit log's in-memory ring buffer and listeners (pkg/audit/audit.go). */
module AuditRing {
  const RING_SIZE: nat := 1000

  datatype AuditEvent = AuditEvent(timestamp: string, eventType: string, severity: string, resource: string, action: string)

  /** The event as it is logged: the caller's timestamp, or the time of logging. */
  function Stamped(evt: AuditEvent, now: string): AuditEvent {
    if evt.timestamp == "" then evt.(timestamp := now) else evt
  }

  datatype Priority = Crit | Warn | Info

  function PriorityOf(evt: AuditEvent): Priority {
    if evt.severity == "critical" then Crit else if evt.severity == "warning" then Warn else Info
  }

  /** What syslog has received. */
  function Forwarded(log: seq<AuditEvent>): seq<(Priority, AuditEvent)> {
    seq(|log|, i requires 0 <= i < |log| => (PriorityOf(log[i]), log[i]))
  }

  function Min(a: nat, b: nat): nat {
    if a < b then a else b
  }

  lemma ForwardedMore(log: seq<AuditEvent>, e: AuditEvent)
    ensures Forwarded(log + [e]) == Forwarded(log) + [(PriorityOf(e), e)]
  {
  }

  function Reverse(s: seq<AuditEvent>): (r: seq<AuditEvent>)
    ensures |r| == |s|
    ensures forall i :: 0 <= i < |r| ==> r[i] == s[|s| - 1 - i]
  {
    if s == [] then [] else [s[|s| - 1]] + Reverse(s[..|s| - 1])
  }

  lemma {:induction false} ReverseFront(e: AuditEvent, s: seq<AuditEvent>)
    ensures Reverse([e] + s) == Reverse(s) + [e]
  {
    if s == [] {
      assert [e] + s == [e];
      assert [e][..0] == [];
    } else {
      assert ([e] + s)[..|[e] + s| - 1] == [e] + s[..|s| - 1];
      ReverseFront(e, s[..|s| - 1]);
    }
  }

  /** The last `n` events of the log, newest first. */
  function Newest(log: seq<AuditEvent>, n: nat): seq<AuditEvent>
    requires n <= |log|
  {
    if n == 0 then [] else Newest(log, n - 1) + [log[|log| - n]]
  }

  /** That is the tail of the log read backwards. */
  lemma {:induction false} NewestIsReversedTail(log: seq<AuditEvent>, n: nat)
    requires n <= |log|
    ensures Newest(log, n) == Reverse(log[|log| - n..])
  {
    if n > 0 {
      NewestIsReversedTail(log, n - 1);
      assert log[|log| - n..] == [log[|log| - n]] + log[|log| - (n - 1)..];
      ReverseFront(log[|log| - n], log[|log| - (n - 1)..]);
    }
  }

  /** Each listener has heard exactly what was logged from when it joined up to the first `n` events. */
  ghost predicate Heard(listeners: seq<nat>, heard: map<nat, seq<AuditEvent>>, joinedAt: map<nat, nat>,
                        log: seq<AuditEvent>, n: nat)
    requires n <= |log|
  {
    forall i :: 0 <= i < |listeners| ==>
      var l := listeners[i];
      l in heard && l in joinedAt && joinedAt[l] <= n && heard[l] == log[joinedAt[l]..n]
  }

  lemma HeardBefore(listeners: seq<nat>, heard: map<nat, seq<AuditEvent>>, joinedAt: map<nat, nat>,
                    log: seq<AuditEvent>, e: AuditEvent)
    requires Heard(listeners, heard, joinedAt, log, |log|)
    ensures Heard(listeners, heard, joinedAt, log + [e], |log|)
  {
    forall i | 0 <= i < |listeners|
      ensures (log + [e])[joinedAt[listeners[i]]..|log|] == log[joinedAt[listeners[i]]..|log|]
    {
    }
  }

  /** How many events a caller asking for `limit` gets. */
  function Granted(limit: int, logged: nat): (n: nat)
    ensures n <= logged
  {
    var total := Min(logged, RING_SIZE);
    if limit <= 0 || limit > total then total else limit
  }

  class AuditLogger {
    const ring: array<AuditEvent>
    var ringIdx: nat
    var ringFull: bool
    var listeners: seq<nat>
    const hasFile: bool
    const hasSyslog: bool
    var file: seq<AuditEvent>
    var syslog: seq<(Priority, AuditEvent)>
    ghost var log: seq<AuditEvent>
    ghost var heard: map<nat, seq<AuditEvent>>
    ghost var joinedAt: map<nat, nat>

    /** The slots before `ringIdx` hold the newest events, those from `ringIdx` on, once full, the ones before. */
    ghost predicate RingValid()
      reads this, ring
    {
      var turn := |log| - ringIdx;
      && ring.Length == RING_SIZE && ringIdx < RING_SIZE
      && (if ringFull then turn >= RING_SIZE else turn == 0)
      && (forall i :: 0 <= i < ringIdx ==> ring[i] == log[turn + i])
      && (ringFull ==> forall i :: ringIdx <= i < RING_SIZE ==> ring[i] == log[turn - RING_SIZE + i])
    }

    ghost predicate Valid()
      reads this, ring
    {
      && RingValid()
      && SinksValid()
      && (forall i, j :: 0 <= i < j < |listeners| ==> listeners[i] != listeners[j])
      && Heard(listeners, heard, joinedAt, log, |log|)
    }

    /** A logger with or without a file and syslog; lines that the file held before do not matter. */
    constructor (hasFile: bool, hasSyslog: bool)
      ensures Valid() && fresh(ring) && log == [] && listeners == []
      ensures this.hasFile == hasFile && this.hasSyslog == hasSyslog
    {
      this.hasFile, this.hasSyslog := hasFile, hasSyslog;
      file, syslog := [], [];
      ring := new AuditEvent[RING_SIZE](_ => AuditEvent("", "", "", "", ""));
      ringIdx, ringFull := 0, false;
      listeners := [];
      log, heard, joinedAt := [], map[], map[];
    }

    /** Writes the event to the file, the ring and syslog, and notifies every listener. */
    method Log(evt: AuditEvent, now: string)
      requires Valid()
      modifies this, ring
      ensures Valid() && log == old(log) + [Stamped(evt, now)]
      ensures var e := log[|log| - 1];
        && (evt.timestamp == "" ==> e.timestamp == now) && (evt.timestamp != "" ==> e.timestamp == evt.timestamp)
        && e.eventType == evt.eventType && e.severity == evt.severity && e.resource == evt.resource && e.action == evt.action
      ensures listeners == old(listeners) && joinedAt == old(joinedAt)
    {
      var e := evt;
      if e.timestamp == "" {
        e := e.(timestamp := now);
      }
      HeardBefore(listeners, heard, joinedAt, log, e);
      Record(e);
      Notify(e);
    }

    /** Everything but the listeners. */
    method Record(e: AuditEvent)
      requires RingValid() && SinksValid()
      modifies this`file, this`syslog, this`ringIdx, this`ringFull, this`log, ring
      ensures RingValid() && SinksValid() && log == old(log) + [e]
    {
      ForwardedMore(log, e);
      if hasFile {
        file := file + [e];
      }
      Store(e);
      Forward(e);
    }

    /** The file holds the full log, and syslog has received all of it. */
    ghost predicate SinksValid()
      reads this
    {
      (hasFile ==> file == log) && (hasSyslog ==> syslog == Forwarded(log))
    }

    method Forward(e: AuditEvent)
      modifies this`syslog
      ensures syslog == if hasSyslog then old(syslog) + [(PriorityOf(e), e)] else old(syslog)
      ensures hasSyslog && e.severity == "critical" ==> syslog == old(syslog) + [(Crit, e)]
      ensures hasSyslog && e.severity == "warning" ==> syslog == old(syslog) + [(Warn, e)]
      ensures hasSyslog && e.severity !in ["critical", "warning"] ==> syslog == old(syslog) + [(Info, e)]
    {
      if hasSyslog {
        if e.severity == "critical" {
          syslog := syslog + [(Crit, e)];
        } else if e.severity == "warning" {
          syslog := syslog + [(Warn, e)];
        } else {
          syslog := syslog + [(Info, e)];
        }
      }
    }

    method Store(evt: AuditEvent)
      requires RingValid()
      modifies this`ringIdx, this`ringFull, this`log, ring
      ensures RingValid() && log == old(log) + [evt]
    {
      ring[ringIdx] := evt;
      ringIdx := ringIdx + 1;
      if ringIdx >= RING_SIZE {
        ringIdx := 0;
        ringFull := true;
      }
      log := log + [evt];
    }

    method Notify(evt: AuditEvent)
      requires forall i, j :: 0 <= i < j < |listeners| ==> listeners[i] != listeners[j]
      requires |log| > 0 && log[|log| - 1] == evt && Heard(listeners, heard, joinedAt, log, |log| - 1)
      modifies this`heard
      ensures Heard(listeners, heard, joinedAt, log, |log|)
    {
      for k := 0 to |listeners|
        invariant Heard(listeners[..k], heard, joinedAt, log, |log|)
        invariant Heard(listeners[k..], heard, joinedAt, log, |log| - 1)
      {
        var l := listeners[k];
        assert l == listeners[k..][0];
        assert log[joinedAt[l]..|log| - 1] + [evt] == log[joinedAt[l]..];
        heard := heard[l := heard[l] + [evt]];
        assert listeners[..k + 1] == listeners[..k] + [l];
        assert listeners[k..] == [l] + listeners[k + 1..];
      }
      assert listeners[..|listeners|] == listeners;
    }

    /** A listener hears exactly what is logged from now on. */
    method AddListener(l: nat)
      requires Valid() && l !in listeners
      modifies this`listeners, this`heard, this`joinedAt
      ensures Valid() && listeners == old(listeners) + [l] && joinedAt == old(joinedAt)[l := |log|]
    {
      listeners := listeners + [l];
      heard := heard[l := []];
      joinedAt := joinedAt[l := |log|];
    }

    /** The slot of the event logged `i` events ago, wrapping below zero. */
    method Slot(idx: int, i: nat) returns (slot: int)
      requires Valid() && i < Min(|log|, RING_SIZE)
      requires BackAt(idx, i)
      ensures BackAt(slot - 1, i + 1)
      ensures 0 <= slot < ring.Length && ring[slot] == log[|log| - 1 - i]
      ensures slot == if idx < 0 then RING_SIZE - 1 else idx
    {
      slot := if idx < 0 then RING_SIZE - 1 else idx;
    }

    /** The last events of the full log, newest first. */
    method RecentEvents(limit: int) returns (result: seq<AuditEvent>)
      requires Valid()
      ensures result == Newest(log, Granted(limit, |log|))
      ensures |result| <= |log| && result == Reverse(log[|log| - |result|..])
      ensures |result| <= 1000 && (limit > 0 ==> |result| <= limit)
      ensures |result| == |log| || |result| == 1000 || (limit > 0 && |result| == limit)
    {
      var total: nat;
      if ringFull {
        total := RING_SIZE;
      } else {
        total := ringIdx;
      }
      NewestIsReversedTail(log, Granted(limit, |log|));
      if total == 0 {
        return [];
      }
      var count := limit;
      if limit <= 0 || limit > total {
        count := total;
      }
      result := ReadBack(count);
    }

    /** The loop over the slots, from the newest back. */
    method ReadBack(count: nat) returns (result: seq<AuditEvent>)
      requires Valid() && count <= Min(|log|, RING_SIZE)
      ensures result == Newest(log, count)
    {
      result := [];
      var idx: int := ringIdx - 1;
      for i := 0 to count
        invariant BackAt(idx, i)
        invariant result == Newest(log, i)
      {
        var slot := Slot(idx, i);
        result := result + [ring[slot]];
        idx := slot - 1;
      }
    }

    /** The index after reading `i` slots, before it wraps. */
    ghost predicate BackAt(idx: int, i: nat)
      reads this
    {
      && -1 <= idx < RING_SIZE
      && (idx == ringIdx - 1 - i || (idx == ringIdx - 1 - i + RING_SIZE && ringFull && idx >= ringIdx - 1))
    }

    method HasEvents() returns (r: bool)
      requires Valid()
      ensures r <==> log != []
    {
      r := ringFull || ringIdx > 0;
    }
  }
}
