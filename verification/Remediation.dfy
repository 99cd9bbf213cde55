/** Remediation actions: planning from failed checks and execution on the endpoint (pkg/fleet/remediate), and
    the controller's own plan (internal/dashboard/fleet_handler.go). */
module RemediationActions {
  import opened FleetTypes
  import opened Texts

  /** The action identifiers of the source; any other text is `OtherAction`. */
  datatype ActionId =
    | EnableOSFIPS | InstallWARP | ConnectWARP
    | FixEdgeCiphers | FixMinTLS | EnableHSTS
    | EnableDiskEnc | EnrollMDM
    | OtherAction(text: string)

  datatype ActionStatus = StatusPending | Executing | Succeeded | Failed | NeedsReboot | ManualOnly | Skipped

  datatype Action = Action(
    id: ActionId,
    description: string,
    autoExec: bool,
    instructions: string,
    status: ActionStatus,
    output: string)

  function Text(id: ActionId): string {
    match id
    case EnableOSFIPS => "enable_os_fips"
    case InstallWARP => "install_warp"
    case ConnectWARP => "connect_warp"
    case FixEdgeCiphers => "fix_edge_ciphers"
    case FixMinTLS => "fix_min_tls"
    case EnableHSTS => "enable_hsts"
    case EnableDiskEnc => "enable_disk_encryption"
    case EnrollMDM => "enroll_mdm"
    case OtherAction(text) => text
  }

  /** Reading a text as an action loses nothing. */
  function ParseAction(text: string): (id: ActionId)
    ensures Text(id) == text
    ensures id == EnableOSFIPS <==> text == "enable_os_fips"
    ensures id == InstallWARP <==> text == "install_warp"
    ensures id == ConnectWARP <==> text == "connect_warp"
    ensures id == EnableDiskEnc <==> text == "enable_disk_encryption"
    ensures id == EnrollMDM <==> text == "enroll_mdm"
  {
    if text == "enable_os_fips" then EnableOSFIPS
    else if text == "install_warp" then InstallWARP
    else if text == "connect_warp" then ConnectWARP
    else if text == "fix_edge_ciphers" then FixEdgeCiphers
    else if text == "fix_min_tls" then FixMinTLS
    else if text == "enable_hsts" then EnableHSTS
    else if text == "enable_disk_encryption" then EnableDiskEnc
    else if text == "enroll_mdm" then EnrollMDM
    else OtherAction(text)
  }

  predicate IsAutoRemediable(id: ActionId) {
    id in {EnableOSFIPS, InstallWARP, ConnectWARP, FixEdgeCiphers, FixMinTLS, EnableHSTS}
  }

  // ---- planning on the endpoint ----

  const NOT_CONNECTED := "WARP installed but not connected"
  const NOT_RUNNING := "WARP found but not on PATH or not running"
  const NOT_INSTALLED := "Install Cloudflare WARP: https://1.1.1.1"

  datatype Choice = Choice(id: ActionId, auto: bool)

  /** The agent compares the remediation text of a WARP item as a whole. */
  function AgentChoice(item: Item): Option<Choice> {
    if item.status == Pass then None
    else if item.id == "ag-fips" then Some(Choice(EnableOSFIPS, true))
    else if item.id == "ag-warp" then
      if item.remediation == NOT_CONNECTED || item.remediation == NOT_RUNNING then Some(Choice(ConnectWARP, true))
      else Some(Choice(InstallWARP, true))
    else if item.id == "ag-disk" then Some(Choice(EnableDiskEnc, false))
    else if item.id == "ag-mdm" then Some(Choice(EnrollMDM, false))
    else None
  }

  function Optional<T>(o: Option<T>): seq<T> {
    match o case Some(x) => [x] case None => []
  }

  function AgentChoices(items: seq<Item>): seq<Choice> {
    if items == [] then []
    else AgentChoices(items[..|items| - 1]) + Optional(AgentChoice(items[|items| - 1]))
  }

  function Choices(actions: seq<Action>): seq<Choice> {
    seq(|actions|, i requires 0 <= i < |actions| => Choice(actions[i].id, actions[i].autoExec))
  }

  /** The instructions that depend on the operating system. */
  datatype Guides = Guides(osFIPS: string, warpInstall: string, diskEnc: string)

  const RUN_CONNECT := "Run: warp-cli connect"
  const CONTACT_IT := "Contact your IT department to enroll this device in\nMicrosoft Intune or Jamf Pro."

  function Description(id: ActionId): string {
    match id
    case EnableOSFIPS => "Enable OS FIPS mode"
    case ConnectWARP => "Connect Cloudflare WARP"
    case InstallWARP => "Install Cloudflare WARP client"
    case EnableDiskEnc => "Enable full-disk encryption"
    case EnrollMDM => "Enroll device in MDM"
    case _ => ""
  }

  function Instructions(guides: Guides, id: ActionId): string {
    match id
    case EnableOSFIPS => guides.osFIPS
    case ConnectWARP => RUN_CONNECT
    case InstallWARP => guides.warpInstall
    case EnableDiskEnc => guides.diskEnc
    case EnrollMDM => CONTACT_IT
    case _ => ""
  }

  /** A choice with all its texts; automatic actions wait, others are for people. */
  function Planned(guides: Guides, c: Choice): Action {
    Action(c.id, Description(c.id), c.auto, Instructions(guides, c.id), if c.auto then StatusPending else ManualOnly, "")
  }

  /** The action for one item, if its check did not pass and has a remedy. */
  function AgentActions(guides: Guides, item: Item): seq<Action> {
    match AgentChoice(item) case None => [] case Some(c) => [Planned(guides, c)]
  }

  function AgentPlan(guides: Guides, items: seq<Item>): seq<Action> {
    if items == [] then []
    else AgentPlan(guides, items[..|items| - 1]) + AgentActions(guides, items[|items| - 1])
  }

  lemma {:induction false} ChoicesOfAgentPlan(guides: Guides, items: seq<Item>)
    ensures Choices(AgentPlan(guides, items)) == AgentChoices(items)
  {
    if items == [] {
    } else {
      var init := items[..|items| - 1];
      ChoicesOfAgentPlan(guides, init);
      ChoicesSplit(AgentPlan(guides, init), AgentActions(guides, items[|items| - 1]));
    }
  }

  lemma ChoicesSplit(a: seq<Action>, b: seq<Action>)
    ensures Choices(a + b) == Choices(a) + Choices(b)
  {
  }

  /** The switch over one failed item. */
  method PlanItem(guides: Guides, item: Item) returns (planned: seq<Action>)
    requires item.status != Pass
    ensures planned == AgentActions(guides, item)
  {
    planned := [];
    if item.id == "ag-fips" {
      planned := [Action(EnableOSFIPS, "Enable OS FIPS mode", true, guides.osFIPS, StatusPending, "")];
    } else if item.id == "ag-warp" {
      if item.remediation == NOT_CONNECTED || item.remediation == NOT_RUNNING {
        planned := [Action(ConnectWARP, "Connect Cloudflare WARP", true, RUN_CONNECT, StatusPending, "")];
      } else {
        planned := [Action(InstallWARP, "Install Cloudflare WARP client", true, guides.warpInstall, StatusPending, "")];
      }
    } else if item.id == "ag-disk" {
      planned := [Action(EnableDiskEnc, "Enable full-disk encryption", false, guides.diskEnc, ManualOnly, "")];
    } else if item.id == "ag-mdm" {
      planned := [Action(EnrollMDM, "Enroll device in MDM", false, CONTACT_IT, ManualOnly, "")];
    }
  }

  method Plan(guides: Guides, section: Section) returns (actions: seq<Action>)
    ensures actions == AgentPlan(guides, section.items)
    ensures Choices(actions) == AgentChoices(section.items)
  {
    actions := [];
    for i := 0 to |section.items|
      invariant actions == AgentPlan(guides, section.items[..i])
    {
      var item := section.items[i];
      assert section.items[..i + 1][..i] == section.items[..i];
      if item.status == Pass {
        continue;
      }
      var planned := PlanItem(guides, item);
      actions := actions + planned;
    }
    assert section.items[..|section.items|] == section.items;
    ChoicesOfAgentPlan(guides, section.items);
  }

  // ---- planning on the controller ----

  predicate SaysDisconnected(text: string) {
    Contains(text, "not connected") || Contains(text, "not running")
  }

  /** The controller searches the remediation text for two phrases instead. */
  function ControllerChoice(item: Item): Option<Choice> {
    if item.status == Pass then None
    else if item.id == "ag-fips" then Some(Choice(EnableOSFIPS, true))
    else if item.id == "ag-warp" then
      if SaysDisconnected(item.remediation) then Some(Choice(ConnectWARP, true)) else Some(Choice(InstallWARP, true))
    else if item.id == "ag-disk" then Some(Choice(EnableDiskEnc, false))
    else if item.id == "ag-mdm" then Some(Choice(EnrollMDM, false))
    else None
  }

  function ControllerChoices(items: seq<Item>): seq<Choice> {
    if items == [] then []
    else ControllerChoices(items[..|items| - 1]) + Optional(ControllerChoice(items[|items| - 1]))
  }

  /** An entry of the controller's plan. */
  datatype PlanAction = PlanAction(choice: Choice, description: string, instructions: string, failedCheck: string)

  /** The controller passes on the report's own remediation text, except for connecting WARP. */
  function ControllerAction(c: Choice, item: Item): PlanAction {
    PlanAction(c, if c.id == InstallWARP then "Install Cloudflare WARP" else Description(c.id),
               if c.id == ConnectWARP then "warp-cli connect" else item.remediation, item.name)
  }

  function ControllerActions(item: Item): seq<PlanAction> {
    match ControllerChoice(item) case None => [] case Some(c) => [ControllerAction(c, item)]
  }

  /** What the items contribute one after the other. */
  function Gathered<T>(contributes: Item -> seq<T>, items: seq<Item>): seq<T> {
    if items == [] then []
    else Gathered(contributes, items[..|items| - 1]) + contributes(items[|items| - 1])
  }

  lemma GatheredMore<T>(contributes: Item -> seq<T>, items: seq<Item>, item: Item)
    ensures Gathered(contributes, items + [item]) == Gathered(contributes, items) + contributes(item)
  {
    assert (items + [item])[..|items + [item]| - 1] == items;
  }

  lemma {:induction false} GatheredSplit<T>(contributes: Item -> seq<T>, a: seq<Item>, b: seq<Item>)
    ensures Gathered(contributes, a + b) == Gathered(contributes, a) + Gathered(contributes, b)
    decreases |b|
  {
    if b == [] {
      assert a + b == a;
    } else {
      var init, last := b[..|b| - 1], b[|b| - 1];
      GatheredSplit(contributes, a, init);
      GatheredSplitMore(contributes, a, init, last);
      assert b == init + [last];
    }
  }

  lemma GatheredSplitMore<T>(contributes: Item -> seq<T>, a: seq<Item>, b: seq<Item>, item: Item)
    requires Gathered(contributes, a + b) == Gathered(contributes, a) + Gathered(contributes, b)
    ensures Gathered(contributes, a + (b + [item])) == Gathered(contributes, a) + Gathered(contributes, b + [item])
  {
    Associates(a, b, [item]);
    GatheredMore(contributes, a + b, item);
    GatheredMore(contributes, b, item);
    Associates(Gathered(contributes, a), Gathered(contributes, b), contributes(item));
  }

  lemma Associates<T>(a: seq<T>, b: seq<T>, c: seq<T>)
    ensures a + (b + c) == (a + b) + c
  {
  }

  function ControllerPlan(items: seq<Item>): seq<PlanAction> {
    Gathered(ControllerActions, items)
  }

  function PlanChoices(plan: seq<PlanAction>): seq<Choice> {
    seq(|plan|, i requires 0 <= i < |plan| => plan[i].choice)
  }

  lemma PlanChoicesSplit(a: seq<PlanAction>, b: seq<PlanAction>)
    ensures PlanChoices(a + b) == PlanChoices(a) + PlanChoices(b)
  {
  }

  lemma {:induction false} ChoicesOfControllerPlan(items: seq<Item>)
    ensures PlanChoices(ControllerPlan(items)) == ControllerChoices(items)
  {
    if items == [] {
    } else {
      ChoicesOfControllerPlan(items[..|items| - 1]);
      PlanChoicesSplit(ControllerPlan(items[..|items| - 1]), ControllerActions(items[|items| - 1]));
    }
  }

  /** The switch over one failed item. */
  method ControllerPlanItem(item: Item) returns (planned: seq<PlanAction>)
    requires item.status != Pass
    ensures planned == ControllerActions(item)
  {
    planned := [];
    if item.id == "ag-fips" {
      planned := [PlanAction(Choice(EnableOSFIPS, true), "Enable OS FIPS mode", item.remediation, item.name)];
    } else if item.id == "ag-warp" {
      if SaysDisconnected(item.remediation) {
        planned := [PlanAction(Choice(ConnectWARP, true), "Connect Cloudflare WARP", "warp-cli connect", item.name)];
      } else {
        planned := [PlanAction(Choice(InstallWARP, true), "Install Cloudflare WARP", item.remediation, item.name)];
      }
    } else if item.id == "ag-disk" {
      planned := [PlanAction(Choice(EnableDiskEnc, false), "Enable full-disk encryption", item.remediation, item.name)];
    } else if item.id == "ag-mdm" {
      planned := [PlanAction(Choice(EnrollMDM, false), "Enroll device in MDM", item.remediation, item.name)];
    }
  }

  lemma PlanMore(sofar: seq<PlanAction>, items: seq<Item>, j: nat)
    requires j < |items|
    ensures sofar + ControllerPlan(items[..j + 1]) == (sofar + ControllerPlan(items[..j])) + ControllerActions(items[j])
    ensures items[j].status == Pass ==> sofar + ControllerPlan(items[..j + 1]) == sofar + ControllerPlan(items[..j])
  {
    assert items[..j + 1] == items[..j] + [items[j]];
    GatheredMore(ControllerActions, items[..j], items[j]);
  }

  /** The inner loop: one section's items, appended to the plan so far. */
  method PlanItems(sofar: seq<PlanAction>, items: seq<Item>) returns (plan: seq<PlanAction>)
    ensures plan == sofar + ControllerPlan(items)
  {
    plan := sofar;
    for j := 0 to |items|
      invariant plan == sofar + ControllerPlan(items[..j])
    {
      PlanMore(sofar, items, j);
      if items[j].status == Pass {
        continue;
      }
      var planned := ControllerPlanItem(items[j]);
      plan := plan + planned;
    }
    assert items[..|items|] == items;
  }

  /** The nested loop over a report. */
  method PlanReport(report: Report) returns (plan: seq<PlanAction>)
    ensures plan == ControllerPlan(Items(report))
    ensures PlanChoices(plan) == ControllerChoices(Items(report))
  {
    plan := [];
    for i := 0 to |report.sections|
      invariant plan == ControllerPlan(AllItems(report.sections[..i]))
    {
      plan := PlanItems(plan, report.sections[i].items);
      OneMoreSection(report.sections, i);
    }
    assert report.sections[..|report.sections|] == report.sections;
    ChoicesOfControllerPlan(Items(report));
  }

  lemma OneMoreSection(sections: seq<Section>, i: nat)
    requires i < |sections|
    ensures ControllerPlan(AllItems(sections[..i + 1]))
         == ControllerPlan(AllItems(sections[..i])) + ControllerPlan(sections[i].items)
  {
    assert sections[..i + 1][..i] == sections[..i];
    GatheredSplit(ControllerActions, AllItems(sections[..i]), sections[i].items);
  }

  // ---- what a plan says of each failed check ----

  /** The checks that have a remedy. */
  predicate Remediable(item: Item) {
    item.status != Pass && item.id in ["ag-fips", "ag-warp", "ag-disk", "ag-mdm"]
  }

  function Failing(items: seq<Item>): seq<Item> {
    if items == [] then []
    else Failing(items[..|items| - 1]) + if Remediable(items[|items| - 1]) then [items[|items| - 1]] else []
  }

  /** The controller's entry for a failed check names the check and passes on what the agent advised, except where
      WARP only has to be connected. */
  predicate Advises(item: Item, p: PlanAction) {
    && p.failedCheck == item.name
    && p.instructions == (if p.choice.id == ConnectWARP then "warp-cli connect" else item.remediation)
    && match item.id
       case "ag-fips" => p.choice == Choice(EnableOSFIPS, true) && p.description == "Enable OS FIPS mode"
       case "ag-disk" => p.choice == Choice(EnableDiskEnc, false) && p.description == "Enable full-disk encryption"
       case "ag-mdm" => p.choice == Choice(EnrollMDM, false) && p.description == "Enroll device in MDM"
       case _ =>
         if Contains(item.remediation, "not connected") || Contains(item.remediation, "not running")
         then p.choice == Choice(ConnectWARP, true) && p.description == "Connect Cloudflare WARP"
         else p.choice == Choice(InstallWARP, true) && p.description == "Install Cloudflare WARP"
  }

  /** The agent's own action for a failed check: its instructions depend on the operating system. */
  predicate Remedies(guides: Guides, item: Item, a: Action) {
    && a.output == "" && a.status == (if a.autoExec then StatusPending else ManualOnly)
    && match item.id
       case "ag-fips" => a.id == EnableOSFIPS && a.autoExec && a.instructions == guides.osFIPS && a.description == "Enable OS FIPS mode"
       case "ag-disk" =>
         a.id == EnableDiskEnc && !a.autoExec && a.instructions == guides.diskEnc && a.description == "Enable full-disk encryption"
       case "ag-mdm" => a.id == EnrollMDM && !a.autoExec && a.instructions == CONTACT_IT && a.description == "Enroll device in MDM"
       case _ =>
         if item.remediation == "WARP installed but not connected"
            || item.remediation == "WARP found but not on PATH or not running"
         then a.id == ConnectWARP && a.autoExec && a.instructions == "Run: warp-cli connect" && a.description == "Connect Cloudflare WARP"
         else a.id == InstallWARP && a.autoExec && a.instructions == guides.warpInstall && a.description == "Install Cloudflare WARP client"
  }

  /** Either plan has one entry for each failed check with a remedy, in report order. */
  lemma {:induction false} ControllerPlanCovers(items: seq<Item>)
    ensures |ControllerPlan(items)| == |Failing(items)|
    ensures forall k :: 0 <= k < |Failing(items)| ==> Advises(Failing(items)[k], ControllerPlan(items)[k])
  {
    if items == [] {
    } else {
      ControllerPlanCovers(items[..|items| - 1]);
      OneItemAdvised(items[|items| - 1]);
    }
  }

  lemma OneItemAdvised(item: Item)
    ensures !Remediable(item) ==> ControllerActions(item) == []
    ensures Remediable(item) ==> |ControllerActions(item)| == 1 && Advises(item, ControllerActions(item)[0])
  {
  }

  lemma {:induction false} AgentPlanCovers(guides: Guides, items: seq<Item>)
    ensures |AgentPlan(guides, items)| == |Failing(items)|
    ensures forall k :: 0 <= k < |Failing(items)| ==> Remedies(guides, Failing(items)[k], AgentPlan(guides, items)[k])
  {
    if items == [] {
    } else {
      AgentPlanCovers(guides, items[..|items| - 1]);
      OneItemRemedied(guides, items[|items| - 1]);
    }
  }

  lemma OneItemRemedied(guides: Guides, item: Item)
    ensures !Remediable(item) ==> AgentActions(guides, item) == []
    ensures Remediable(item) ==> |AgentActions(guides, item)| == 1 && Remedies(guides, item, AgentActions(guides, item)[0])
  {
  }

  // ---- the two planners ----

  /** Both planners read the item's WARP text the same way. */
  predicate ReadAlike(item: Item) {
    item.status != Pass && item.id == "ag-warp" ==>
      (SaysDisconnected(item.remediation) <==> item.remediation == NOT_CONNECTED || item.remediation == NOT_RUNNING)
  }

  lemma SameShape(item: Item)
    ensures AgentChoice(item).Some? <==> ControllerChoice(item).Some?
    ensures AgentChoice(item) == ControllerChoice(item) <==> ReadAlike(item)
  {
  }

  lemma {:induction false} SameLength(items: seq<Item>)
    ensures |AgentChoices(items)| == |ControllerChoices(items)|
  {
    if items == [] {
    } else {
      SameShape(items[|items| - 1]);
      SameLength(items[..|items| - 1]);
    }
  }

  /** The plans agree exactly when every item's text is read alike. */
  lemma {:induction false} PlansAgree(items: seq<Item>)
    ensures AgentChoices(items) == ControllerChoices(items) <==> forall item <- items :: ReadAlike(item)
  {
    if items == [] {
    } else {
      var init, last := items[..|items| - 1], items[|items| - 1];
      SameShape(last);
      SameLength(init);
      PlansAgree(init);
      assert items == init + [last];
      var a, b := AgentChoices(init), ControllerChoices(init);
      var x, y := Optional(AgentChoice(last)), Optional(ControllerChoice(last));
      assert (a + x == b + y) <==> (a == b && x == y) by {
        assert (a + x)[..|a|] == a && (b + y)[..|a|] == b && (a + x)[|a|..] == x && (b + y)[|a|..] == y;
      }
    }
  }

  lemma {:induction false} AgentChoicesSplit(a: seq<Item>, b: seq<Item>)
    ensures AgentChoices(a + b) == AgentChoices(a) + AgentChoices(b)
    decreases |b|
  {
    if b == [] {
      assert a + b == a;
    } else {
      AgentChoicesSplit(a, b[..|b| - 1]);
      assert (a + b)[..|a + b| - 1] == a + b[..|b| - 1];
    }
  }

  /** Running the agent's planner section by section. */
  function SectionChoices(sections: seq<Section>): seq<Choice> {
    if sections == [] then [] else SectionChoices(sections[..|sections| - 1]) + AgentChoices(sections[|sections| - 1].items)
  }

  lemma {:induction false} SectionsConcatenate(sections: seq<Section>)
    ensures SectionChoices(sections) == AgentChoices(AllItems(sections))
  {
    if sections == [] {
    } else {
      SectionsConcatenate(sections[..|sections| - 1]);
      AgentChoicesSplit(AllItems(sections[..|sections| - 1]), sections[|sections| - 1].items);
    }
  }

  /** The controller's plan for a report is the agent's plans of its sections, one after the other, exactly
      when every WARP text is read alike. */
  lemma ControllerPlansLikeAgent(report: Report)
    ensures ControllerChoices(Items(report)) == SectionChoices(report.sections)
            <==> forall item <- Items(report) :: ReadAlike(item)
  {
    SectionsConcatenate(report.sections);
    PlansAgree(Items(report));
  }

  /** Hence the plans agree for every report whose WARP texts an agent can have sent. */
  lemma {:induction false} AgentReportsArePlannedAlike(report: Report)
    requires forall item <- Items(report) :: item.id == "ag-warp" && item.status != Pass ==> IsAgentText(item.remediation)
    ensures ControllerChoices(Items(report)) == SectionChoices(report.sections)
  {
    forall item | item in Items(report)
      ensures ReadAlike(item)
    {
      if item.id == "ag-warp" && item.status != Pass {
        AgentTextsReadAlike(item);
      }
    }
    ControllerPlansLikeAgent(report);
  }

  /** Every planned flag is the classification of its action. */
  lemma FlagsAreClassification(item: Item)
    ensures AgentChoice(item).Some? ==> AgentChoice(item).value.auto == IsAutoRemediable(AgentChoice(item).value.id)
    ensures ControllerChoice(item).Some? ==> ControllerChoice(item).value.auto == IsAutoRemediable(ControllerChoice(item).value.id)
  {
  }

  /** No "no" anywhere. */
  predicate Nowhere(s: string) {
    forall i :: 0 <= i < |s| - 1 && s[i] == 'n' ==> s[i + 1] != 'o'
  }

  lemma InstalledNowhere()
    ensures Nowhere(NOT_INSTALLED)
  {
    forall i | 0 <= i < |NOT_INSTALLED| - 1 && NOT_INSTALLED[i] == 'n'
      ensures NOT_INSTALLED[i + 1] != 'o'
    {
      assert i == 1;
    }
  }

  lemma NowhereContained(s: string, part: string)
    requires Nowhere(s) && |part| >= 2 && part[0] == 'n' && part[1] == 'o'
    ensures !Contains(s, part)
  {
    NotContained(s, part);
  }

  lemma {:induction false} NotInstalledText()
    ensures !SaysDisconnected(NOT_INSTALLED)
  {
    InstalledNowhere();
    NowhereContained(NOT_INSTALLED, "not connected");
    NowhereContained(NOT_INSTALLED, "not running");
  }

  lemma {:induction false} NotConnectedText()
    ensures SaysDisconnected(NOT_CONNECTED)
  {
    ContainsAt(NOT_CONNECTED, "not connected", 19);
  }

  lemma {:induction false} NotRunningText()
    ensures SaysDisconnected(NOT_RUNNING)
  {
    ContainsAt(NOT_RUNNING, "not running", 30);
  }

  predicate IsAgentText(text: string) {
    text == NOT_CONNECTED || text == NOT_RUNNING || text == NOT_INSTALLED
  }

  /** The three texts an agent can send are among them. */
  lemma {:induction false} AgentTextsReadAlike(item: Item)
    requires IsAgentText(item.remediation)
    ensures ReadAlike(item)
  {
    NotInstalledText();
    NotConnectedText();
    NotRunningText();
  }
}
