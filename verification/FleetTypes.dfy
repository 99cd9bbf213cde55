/** The entities of the fleet controller: nodes, tokens, policies, reports and remediation requests.
    Random identifiers and hashes are numbers; hashing is taken to be injective, so a hash stands for
    the secret it was computed from. */
module FleetTypes {
  /** Nanoseconds since the epoch. */
  type Time = nat
  type NodeId = nat
  type TokenId = nat
  type RequestId = nat
  type Hash = nat

  const SECOND: nat := 1_000_000_000

  datatype Option<+T> = None | Some(value: T)

  /** What is left of a time once it went through an RFC 3339 column: whole seconds only. */
  function Stored(t: Time): (r: Time)
    ensures r <= t < r + SECOND
    ensures r % SECOND == 0
  {
    t - t % SECOND
  }

  datatype Role = Controller | Server | Proxy | Client | OtherRole(name: string)

  /** The status column is free text; the constants of the source get names, anything else is `OtherStatus`. */
  datatype NodeStatus = Online | Degraded | Offline | OtherStatus(text: string)

  datatype ComplianceStatus = Unknown | Compliant | NonCompliant | GracePeriod

  datatype Mode = Enforce | Audit | Disabled | OtherMode(text: string)

  datatype Policy = Policy(
    mode: Mode,
    requireOSFIPS: bool,
    requireDiskEnc: bool,
    requireMDM: bool,
    gracePeriodSec: int)

  datatype Node = Node(
    name: string,
    role: Role,
    region: string,
    keyHash: Hash,
    enrolledAt: Time,
    lastHeartbeat: Time,
    status: NodeStatus,
    passed: int,
    failed: int,
    warned: int,
    compliance: ComplianceStatus)

  datatype Token = Token(
    hash: Hash,
    role: Role,
    region: string,
    expiresAt: Time,
    maxUses: int,
    usedCount: nat)

  datatype ItemStatus = Pass | Fail | Warning | UnknownItem | OtherItem(text: string)

  datatype Item = Item(id: string, name: string, status: ItemStatus, remediation: string)

  datatype Section = Section(items: seq<Item>)

  /** A compliance report with the counts of its own summary, which the controller trusts. */
  datatype Report = Report(sections: seq<Section>, passed: int, failed: int, warned: int)

  /** The items of all sections, in report order. */
  function AllItems(sections: seq<Section>): seq<Item> {
    if sections == [] then [] else AllItems(sections[..|sections| - 1]) + sections[|sections| - 1].items
  }

  function Items(report: Report): seq<Item> {
    AllItems(report.sections)
  }

  datatype RequestStatus = Pending | Completed

  datatype Request = Request(
    node: NodeId,
    actions: seq<string>,
    dryRun: bool,
    status: RequestStatus,
    createdAt: Time,
    completedAt: Option<Time>,
    result: string)
}
