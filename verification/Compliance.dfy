/** Compliance policy (internal/dashboard/fleet_handler.go): which report items a policy looks at and what
    it takes to meet it. */
module CompliancePolicy {
  import opened FleetTypes

  /** Items a policy looks at, by display name. RequireMDM and GracePeriodSec play no part. */
  predicate LooksAt(policy: Policy, item: Item) {
    || (policy.requireOSFIPS && item.name == "OS FIPS mode")
    || (policy.requireDiskEnc && item.name == "Disk encryption")
    || item.name == "FIPS backend active"
  }

  predicate Clears(policy: Policy, item: Item) {
    LooksAt(policy, item) ==> item.status == Pass
  }

  /** Every item the policy looks at passes. */
  ghost predicate Meets(policy: Policy, report: Report) {
    forall i :: 0 <= i < |Items(report)| ==> Clears(policy, Items(report)[i])
  }

  /** Every item passes, or is not looked at, under the policy in force when its turn came. The handler
      dereferences its policy afresh for every item, without a lock, so these can be different policies. */
  ghost predicate MeetsEach(seen: seq<Policy>, report: Report)
    requires |seen| == |Items(report)|
  {
    forall i :: 0 <= i < |seen| ==> Clears(seen[i], Items(report)[i])
  }

  /** What the evaluation stores: nothing when the policy read first is disabled. */
  ghost function Verdict(start: Policy, seen: seq<Policy>, report: Report): Option<bool>
    requires |seen| == |Items(report)|
  {
    if start.mode == Disabled then None else Some(MeetsEach(seen, report))
  }

  /** The policies ask for the same items. */
  predicate SameDemands(p: Policy, q: Policy) {
    p.requireOSFIPS == q.requireOSFIPS && p.requireDiskEnc == q.requireDiskEnc
  }

  lemma SameDemandsClear(p: Policy, q: Policy, item: Item)
    requires SameDemands(p, q)
    ensures Clears(p, item) == Clears(q, item)
  {
  }

  /** Where all reads see the same demands, they judge like any one of them. */
  lemma SteadyReadsJudgeAlike(p: Policy, seen: seq<Policy>, report: Report)
    requires |seen| == |Items(report)| && forall q <- seen :: SameDemands(p, q)
    ensures MeetsEach(seen, report) <==> Meets(p, report)
  {
    forall i | 0 <= i < |seen|
      ensures Clears(seen[i], Items(report)[i]) == Clears(p, Items(report)[i])
    {
      SameDemandsClear(p, seen[i], Items(report)[i]);
    }
  }

  /** A report that met every policy it was held against meets one given policy exactly when, on each item
      that does not pass, that policy and the one in force at the item's turn agree whether to look. */
  lemma OnePolicyIsMet(p: Policy, seen: seq<Policy>, report: Report)
    requires |seen| == |Items(report)| && MeetsEach(seen, report)
    ensures Meets(p, report) <==>
      forall i :: 0 <= i < |seen| && Items(report)[i].status != Pass ==>
        LooksAt(p, Items(report)[i]) == LooksAt(seen[i], Items(report)[i])
  {
    forall i | 0 <= i < |seen| && Items(report)[i].status != Pass
      ensures !LooksAt(seen[i], Items(report)[i])
    {
      assert Clears(seen[i], Items(report)[i]);
    }
  }

  /** A report of `n` items, one of which, at position `k`, fails under the given name. */
  function Failing(n: nat, k: nat, name: string): Report {
    Report([Section(seq(n, i => Item("", if i == k then name else "", if i == k then Fail else Pass, "")))], 0, 0, 0)
  }

  lemma FailingItems(n: nat, k: nat, name: string)
    ensures Items(Failing(n, k, name)) == Failing(n, k, name).sections[0].items
  {
    assert AllItems([]) == [];
    var sections := Failing(n, k, name).sections;
    assert sections[..0] == [];
  }

  /** Whatever the report says, an evaluation whose reads saw `seen` judges as policy `p` would exactly when
      every read saw the demands of `p`. */
  lemma OneVerdictIffSameDemands(p: Policy, seen: seq<Policy>)
    ensures (forall report | |Items(report)| == |seen| :: MeetsEach(seen, report) <==> Meets(p, report))
            <==> forall q <- seen :: SameDemands(p, q)
  {
    if forall q <- seen :: SameDemands(p, q) {
      forall report | |Items(report)| == |seen|
        ensures MeetsEach(seen, report) <==> Meets(p, report)
      {
        SteadyReadsJudgeAlike(p, seen, report);
      }
    } else {
      var k :| 0 <= k < |seen| && !SameDemands(p, seen[k]);
      var name := if p.requireOSFIPS != seen[k].requireOSFIPS then "OS FIPS mode" else "Disk encryption";
      MixedReadDiffers(p, seen, k, name);
    }
  }

  lemma MixedReadDiffers(p: Policy, seen: seq<Policy>, k: nat, name: string)
    requires k < |seen| && LooksAt(p, Item("", name, Fail, "")) != LooksAt(seen[k], Item("", name, Fail, ""))
    ensures var report := Failing(|seen|, k, name);
      |Items(report)| == |seen| && MeetsEach(seen, report) != Meets(p, report)
  {
    var report := Failing(|seen|, k, name);
    FailingItems(|seen|, k, name);
    var item := Item("", name, Fail, "");
    assert Items(report)[k] == item;
    assert forall i :: 0 <= i < |seen| && i != k ==> Items(report)[i] == Item("", "", Pass, "");
    assert MeetsEach(seen, report) <==> Clears(seen[k], item);
    assert Meets(p, report) <==> Clears(p, item);
  }

  /** What makes a node non-compliant, item by item: a status other than pass under a name that the policy asks
      for, or under the one name that every policy asks for. */
  predicate FailsUnder(policy: Policy, item: Item) {
    item.status != Pass &&
      match item.name
      case "FIPS backend active" => true
      case "OS FIPS mode" => policy.requireOSFIPS
      case "Disk encryption" => policy.requireDiskEnc
      case _ => false
  }

  /** What is stored, told from the items: nothing under a disabled policy, and otherwise non-compliance for any item
      that fails under the policy read for it; the FIPS backend has to be active whatever the policy requires. */
  lemma VerdictByItems(start: Policy, seen: seq<Policy>, report: Report)
    requires |seen| == |Items(report)|
    ensures Verdict(start, seen, report) == None <==> start.mode == Disabled
    ensures Verdict(start, seen, report) == Some(false) <==>
      start.mode != Disabled && exists i :: 0 <= i < |seen| && FailsUnder(seen[i], Items(report)[i])
    ensures start.mode != Disabled ==>
      forall i :: 0 <= i < |seen| && Items(report)[i].name == "FIPS backend active" && Items(report)[i].status != Pass ==>
        Verdict(start, seen, report) == Some(false)
  {
    forall i | 0 <= i < |seen|
      ensures Clears(seen[i], Items(report)[i]) <==> !FailsUnder(seen[i], Items(report)[i])
    {
    }
    forall i | 0 <= i < |seen| && Items(report)[i].name == "FIPS backend active" && Items(report)[i].status != Pass
      ensures FailsUnder(seen[i], Items(report)[i])
    {
    }
  }

  /** The verdict as the handler computes it: a flag flipped by the first failing item and never restored.
      `seen` is what the dereferences of the policy return, item by item. */
  method Judge(seen: seq<Policy>, report: Report) returns (compliant: bool)
    requires |seen| == |Items(report)|
    ensures compliant <==> MeetsEach(seen, report)
    ensures !compliant <==> exists i :: 0 <= i < |seen| && FailsUnder(seen[i], Items(report)[i])
  {
    compliant := true;
    var n: nat := 0;
    for i := 0 to |report.sections|
      invariant n == |AllItems(report.sections[..i])| <= |seen|
      invariant AllItems(report.sections[..i]) == Items(report)[..n]
      invariant compliant <==> forall k :: 0 <= k < n ==> Clears(seen[k], Items(report)[k])
    {
      var items := report.sections[i].items;
      ItemsOfSection(report, i);
      for j := 0 to |items|
        invariant n == |AllItems(report.sections[..i])| + j <= |seen|
        invariant compliant <==> forall k :: 0 <= k < n ==> Clears(seen[k], Items(report)[k])
      {
        var item := items[j];
        assert item == Items(report)[n];
        var policy := seen[n];
        if policy.requireOSFIPS && item.name == "OS FIPS mode" && item.status != Pass {
          compliant := false;
        }
        if policy.requireDiskEnc && item.name == "Disk encryption" && item.status != Pass {
          compliant := false;
        }
        if item.name == "FIPS backend active" && item.status != Pass {
          compliant := false;
        }
        n := n + 1;
      }
    }
    assert report.sections[..|report.sections|] == report.sections;
  }

  lemma {:induction false} ItemsPrefix(sections: seq<Section>, i: nat)
    requires i <= |sections|
    ensures AllItems(sections[..i]) <= AllItems(sections)
    decreases |sections|
  {
    if i == |sections| {
      assert sections[..i] == sections;
    } else {
      var init := sections[..|sections| - 1];
      assert init[..i] == sections[..i];
      ItemsPrefix(init, i);
    }
  }

  /** The items of section `i` stand right after those of the sections before. */
  lemma ItemsOfSection(report: Report, i: nat)
    requires i < |report.sections|
    ensures var before, items := AllItems(report.sections[..i]), report.sections[i].items;
      && AllItems(report.sections[..i + 1]) == before + items
      && before + items <= Items(report)
  {
    assert report.sections[..i + 1][..i] == report.sections[..i];
    ItemsPrefix(report.sections, i + 1);
  }

  /** What the routing table says of a server row. */
  predicate Routable(policy: Policy, row: Node) {
    row.status == Online && (policy.mode == Enforce ==> row.compliance == Compliant)
  }

  /** The names under which the endpoint agent reports its checks (pkg/fleet/agentchecks.go). */
  const AGENT_ITEMS: seq<string> := [
    "OS FIPS Mode", "Operating System", "Disk Encryption", "MDM Enrollment", "Cloudflare WARP", "TLS Capabilities"]

  ghost predicate FromAgent(report: Report) {
    forall i :: 0 <= i < |Items(report)| ==> Items(report)[i].name in AGENT_ITEMS
  }

  lemma NamesDiffer(name: string)
    requires name in AGENT_ITEMS
    ensures name != "OS FIPS mode" && name != "Disk encryption" && name != "FIPS backend active"
  {
    assert "OS FIPS Mode"[8] != "OS FIPS mode"[8];
    assert "Disk Encryption"[5] != "Disk encryption"[5];
    assert "OS FIPS Mode"[0] == 'O' && "Operating System"[0] == 'O' && "Operating System"[1] == 'p'
        && "OS FIPS mode"[1] == 'S' && "Disk encryption"[0] == 'D' && "FIPS backend active"[0] == 'F'
        && "Disk Encryption"[0] == 'D' && "MDM Enrollment"[0] == 'M' && "Cloudflare WARP"[0] == 'C'
        && "TLS Capabilities"[0] == 'T';
  }

  /** The policy compares case-sensitively with names the agent does not use, so a report made of agent
      checks meets every policy, whatever it says about FIPS mode or disk encryption. */
  lemma AgentReportsMeetEveryPolicy(policy: Policy, report: Report)
    requires FromAgent(report)
    ensures Meets(policy, report)
    ensures forall seen: seq<Policy> | |seen| == |Items(report)| :: MeetsEach(seen, report)
  {
    forall p, i | 0 <= i < |Items(report)|
      ensures Clears(p, Items(report)[i])
    {
      NamesDiffer(Items(report)[i].name);
    }
  }
}
