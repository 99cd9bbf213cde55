/** Webhook alerts with a cooldown per event type and resource (pkg/alerts/alerts.go). */
module AlertCooldown {
  import opened FleetTypes
  import opened AuditRing

  datatype Webhook = Webhook(url: string, events: seq<string>)

  predicate ShouldAlert(e: AuditEvent) {
    || e.eventType == "compliance_change"
    || (e.eventType == "auth_attempt" && (e.action == "login_failed" || e.action == "lockout"))
    || (e.eventType == "credential_lifecycle" && (e.severity == "warning" || e.severity == "critical"))
    || (e.eventType == "system_event" && e.severity == "critical")
  }

  /** No filter means every event. */
  predicate MatchesFilter(w: Webhook, e: AuditEvent) {
    w.events == [] || e.eventType in w.events
  }

  /** The webhooks that an event goes to, each as often as it is configured. */
  function Matching(webhooks: seq<Webhook>, e: AuditEvent): seq<string> {
    if webhooks == [] then [] else
      var last := webhooks[|webhooks| - 1];
      Matching(webhooks[..|webhooks| - 1], e) + if MatchesFilter(last, e) then [last.url] else []
  }

  lemma MatchingOne(w: Webhook, e: AuditEvent)
    ensures Matching([w], e) == if w.events == [] || e.eventType in w.events then [w.url] else []
  {
    assert [w][..0] == [] && Matching([], e) == [];
  }

  lemma MatchingMore(webhooks: seq<Webhook>, w: Webhook, e: AuditEvent)
    ensures Matching(webhooks + [w], e) == Matching(webhooks, e) + Matching([w], e)
  {
    MatchingOne(w, e);
    assert (webhooks + [w])[..|webhooks + [w]| - 1] == webhooks;
  }

  lemma Associates(a: seq<string>, b: seq<string>, c: seq<string>)
    ensures (a + b) + c == a + (b + c)
  {
  }

  /** Deliveries keep the order of the configuration, one per webhook that the event passes. */
  lemma {:induction false} MatchingInOrder(first: seq<Webhook>, second: seq<Webhook>, e: AuditEvent)
    ensures Matching(first + second, e) == Matching(first, e) + Matching(second, e)
    decreases |second|
  {
    if second == [] {
      assert first + second == first;
    } else {
      var init, last := second[..|second| - 1], second[|second| - 1];
      assert second == init + [last] && first + second == (first + init) + [last];
      MatchingInOrder(first, init, e);
      MatchingMore(first + init, last, e);
      MatchingMore(init, last, e);
      Associates(Matching(first, e), Matching(init, e), Matching([last], e));
    }
  }

  /** Webhooks without a filter get every alert; no webhook gets an event its filter does not name. */
  lemma {:induction false} MatchingGoesToFilters(webhooks: seq<Webhook>, e: AuditEvent, url: string)
    ensures url in Matching(webhooks, e) <==>
            exists w <- webhooks :: w.url == url && (w.events == [] || e.eventType in w.events)
  {
    if webhooks == [] {
    } else {
      var init, last := webhooks[..|webhooks| - 1], webhooks[|webhooks| - 1];
      MatchingGoesToFilters(init, e, url);
      assert webhooks == init + [last];
    }
  }

  type Pair = (string, string)

  function Key(p: Pair): string {
    p.0 + ":" + p.1
  }

  predicate Colonless(s: string) {
    ':' !in s
  }

  lemma FirstColon(p: Pair)
    requires Colonless(p.0)
    ensures Key(p)[|p.0|] == ':' && forall k :: 0 <= k < |p.0| ==> Key(p)[k] != ':'
    ensures p.0 == Key(p)[..|p.0|] && p.1 == Key(p)[|p.0| + 1..]
  {
    assert forall k :: 0 <= k < |p.0| ==> Key(p)[k] == p.0[k];
  }

  /** Types without a colon make the joined key injective: the first colon ends the type. */
  lemma KeyInjective(p: Pair, q: Pair)
    requires Colonless(p.0) && Colonless(q.0) && Key(p) == Key(q)
    ensures p == q
  {
    FirstColon(p);
    FirstColon(q);
    assert |p.0| == |q.0|;
  }

  /** Without that restriction, different pairs share a key. */
  lemma KeyCollides()
    ensures Key(("a:b", "c")) == Key(("a", "b:c"))
  {
  }

  lemma AlertableIsColonless(e: AuditEvent)
    requires ShouldAlert(e)
    ensures Colonless(e.eventType)
  {
  }

  /** When each pair was dispatched. */
  type Dispatches = map<Pair, seq<Time>>

  function Of(d: Dispatches, p: Pair): seq<Time> {
    if p in d then d[p] else []
  }

  /** A dispatch of the pair happened less than `cooldown` before `now`. */
  predicate Recent(d: Dispatches, p: Pair, now: Time, cooldown: nat) {
    Of(d, p) != [] && now - Of(d, p)[|Of(d, p)| - 1] < cooldown
  }

  ghost predicate Spaced(times: seq<Time>, cooldown: nat) {
    forall i :: 0 < i < |times| ==> times[i] - times[i - 1] >= cooldown
  }

  lemma {:induction false} SpacedApart(times: seq<Time>, cooldown: nat, i: nat, j: nat)
    requires Spaced(times, cooldown) && i < j < |times|
    ensures times[j] - times[i] >= cooldown
    decreases j
  {
    if i + 1 < j {
      SpacedApart(times, cooldown, i, j - 1);
    }
  }

  /** Each pair's cooldown entry is its last dispatch, and every entry belongs to some pair. */
  ghost predicate Consistent(cooldowns: map<string, Time>, dispatches: Dispatches, owner: map<string, Pair>,
                             cooldown: nat) {
    && (forall p <- dispatches :: Colonless(p.0) && dispatches[p] != [] && Spaced(dispatches[p], cooldown))
    && (forall p <- dispatches :: Key(p) in cooldowns && cooldowns[Key(p)] == dispatches[p][|dispatches[p]| - 1])
    && (forall k <- cooldowns :: k in owner && owner[k] in dispatches && Key(owner[k]) == k)
  }

  lemma DispatchKeepsConsistent(cooldowns: map<string, Time>, dispatches: Dispatches, owner: map<string, Pair>,
                                cooldown: nat, p: Pair, checkedAt: Time, now: Time)
    requires Consistent(cooldowns, dispatches, owner, cooldown) && Colonless(p.0)
    requires !Recent(dispatches, p, checkedAt, cooldown) && checkedAt <= now
    ensures Consistent(cooldowns[Key(p) := now], dispatches[p := Of(dispatches, p) + [now]], owner[Key(p) := p], cooldown)
  {
    var times := Of(dispatches, p) + [now];
    assert Spaced(times, cooldown);
    forall q | q in dispatches && q != p
      ensures Key(q) != Key(p)
    {
      if Key(q) == Key(p) {
        KeyInjective(q, p);
      }
    }
  }

  /** Without an entry for its key, the pair was never dispatched. */
  lemma EntryIsOwn(cooldowns: map<string, Time>, dispatches: Dispatches, owner: map<string, Pair>, cooldown: nat,
                   p: Pair)
    requires Consistent(cooldowns, dispatches, owner, cooldown) && Colonless(p.0)
    ensures Key(p) in cooldowns <==> p in dispatches
  {
    if Key(p) in cooldowns {
      KeyInjective(owner[Key(p)], p);
    }
  }

  class AlertManager {
    const webhooks: seq<Webhook>
    const cooldown: nat
    var cooldowns: map<string, Time>
    ghost var dispatches: Dispatches
    ghost var owner: map<string, Pair>

    constructor (webhooks: seq<Webhook>)
      ensures this.webhooks == webhooks && cooldown == 300 * SECOND && dispatches == map[] && Valid()
    {
      this.webhooks := webhooks;
      cooldown := 300 * SECOND;
      cooldowns := map[];
      dispatches, owner := map[], map[];
    }

    ghost predicate Valid()
      reads this
    {
      Consistent(cooldowns, dispatches, owner, cooldown)
    }

    /** One delivery per matching webhook, in order. */
    method Recipients(e: AuditEvent) returns (urls: seq<string>)
      ensures urls == Matching(webhooks, e)
    {
      urls := [];
      for i := 0 to |webhooks|
        invariant urls == Matching(webhooks[..i], e)
      {
        assert webhooks[..i + 1][..i] == webhooks[..i];
        if MatchesFilter(webhooks[i], e) {
          urls := urls + [webhooks[i].url];
        }
      }
      assert webhooks[..|webhooks|] == webhooks;
    }

    /** Compares and records under the lock; the clock is read twice. */
    method TryDispatch(p: Pair, checkedAt: Time, now: Time) returns (dispatched: bool)
      requires Valid() && checkedAt <= now && Colonless(p.0)
      modifies this
      ensures Valid()
      ensures dispatched <==> !Recent(old(dispatches), p, checkedAt, cooldown)
      ensures p !in old(dispatches) ==> dispatched
      ensures p in old(dispatches) ==>
        old(dispatches)[p] != []
        && (dispatched <==> checkedAt - old(dispatches)[p][|old(dispatches)[p]| - 1] >= cooldown)
      ensures dispatches == if dispatched then old(dispatches)[p := Of(old(dispatches), p) + [now]] else old(dispatches)
    {
      EntryIsOwn(cooldowns, dispatches, owner, cooldown, p);
      var key := p.0 + ":" + p.1;
      if key in cooldowns && checkedAt - cooldowns[key] < cooldown {
        return false;
      }
      DispatchKeepsConsistent(cooldowns, dispatches, owner, cooldown, p, checkedAt, now);
      cooldowns := cooldowns[key := now];
      owner := owner[key := p];
      dispatches := dispatches[p := Of(dispatches, p) + [now]];
      dispatched := true;
    }

    /** An alertable event is dispatched unless its own pair was dispatched less than the cooldown ago. */
    method OnEvent(e: AuditEvent, checkedAt: Time, now: Time) returns (dispatched: bool, urls: seq<string>)
      requires Valid() && checkedAt <= now
      modifies this
      ensures Valid()
      ensures var p := (e.eventType, e.resource);
        && (dispatched <==> ShouldAlert(e) && !Recent(old(dispatches), p, checkedAt, cooldown))
        && dispatches == (if dispatched then old(dispatches)[p := Of(old(dispatches), p) + [now]] else old(dispatches))
      ensures urls == if dispatched then Matching(webhooks, e) else []
      ensures !Recent(old(dispatches), (e.eventType, e.resource), checkedAt, cooldown) ==>
        match e.eventType
        case "compliance_change" => dispatched
        case "auth_attempt" => dispatched <==> e.action == "login_failed" || e.action == "lockout"
        case "credential_lifecycle" => dispatched <==> e.severity == "warning" || e.severity == "critical"
        case "system_event" => dispatched <==> e.severity == "critical"
        case _ => !dispatched
    {
      urls := [];
      if !ShouldAlert(e) {
        return false, [];
      }
      AlertableIsColonless(e);
      dispatched := TryDispatch((e.eventType, e.resource), checkedAt, now);
      if dispatched {
        urls := Recipients(e);
      }
    }
  }

  /** Two dispatches of one pair are at least the cooldown apart. */
  lemma DispatchesApart(m: AlertManager, p: Pair, i: nat, j: nat)
    requires m.Valid() && p in m.dispatches && i < j < |m.dispatches[p]|
    ensures m.dispatches[p][j] - m.dispatches[p][i] >= m.cooldown
  {
    SpacedApart(m.dispatches[p], m.cooldown, i, j);
  }
}
