/** Fleet-wide statistics (GetSummary in pkg/fleet/sqlite.go). */
module Summaries {
  import opened FleetTypes
  import opened FleetStore
  import opened StaleNodes
  import opened FleetRuns
  import opened FleetSafety

  type Rows = map<NodeId, Node>

  datatype Summary = Summary(
    totalNodes: nat,
    online: nat,
    degraded: nat,
    offline: nat,
    byRole: map<Role, nat>,
    byRegion: map<string, nat>,
    fullyCompliant: nat)

  function StatusOf(row: Node): NodeStatus { row.status }
  function RoleOf(row: Node): Role { row.role }
  function RegionOf(row: Node): string { row.region }

  function Having<K(==)>(rows: Rows, column: Node -> K, k: K): set<NodeId> {
    set id | id in rows && column(rows[id]) == k
  }

  /** SELECT column, COUNT( * ) GROUP BY column: every value that occurs, once, with its number of rows. */
  ghost predicate IsGrouping<K>(rows: Rows, column: Node -> K, groups: seq<(K, nat)>) {
    && (forall i, j :: 0 <= i < j < |groups| ==> groups[i].0 != groups[j].0)
    && (forall g <- groups :: g.1 == |Having(rows, column, g.0)| > 0)
    && (forall id <- rows :: exists g <- groups :: g.0 == column(rows[id]))
  }

  function Regional(rows: Rows): Rows {
    map id | id in rows && rows[id].region != "" :: rows[id]
  }

  function Clean(rows: Rows): set<NodeId> {
    set id | id in rows && rows[id].failed == 0 && rows[id].status != Offline
  }

  /** Rows whose column is one of the given values. */
  ghost function Within<K>(rows: Rows, column: Node -> K, keys: set<K>): set<NodeId> {
    set id | id in rows && column(rows[id]) in keys
  }

  ghost function KeysOf<K>(groups: seq<(K, nat)>): set<K> {
    set g <- groups :: g.0
  }

  lemma WithinSnoc<K>(rows: Rows, column: Node -> K, keys: set<K>, k: K)
    requires k !in keys
    ensures |Within(rows, column, keys + {k})| == |Within(rows, column, keys)| + |Having(rows, column, k)|
  {
    assert Within(rows, column, keys + {k}) == Within(rows, column, keys) + Having(rows, column, k);
  }

  method CountStatuses(rows: Rows, groups: seq<(NodeStatus, nat)>)
    returns (total: nat, online: nat, degraded: nat, offline: nat)
    requires IsGrouping(rows, StatusOf, groups)
    ensures total == |rows|
    ensures online == |Having(rows, StatusOf, Online)|
    ensures degraded == |Having(rows, StatusOf, Degraded)|
    ensures offline == |Having(rows, StatusOf, Offline)|
  {
    total, online, degraded, offline := 0, 0, 0, 0;
    ghost var keys := {};
    for i := 0 to |groups|
      invariant keys == KeysOf(groups[..i])
      invariant total == |Within(rows, StatusOf, keys)|
      invariant online == if Online in keys then |Having(rows, StatusOf, Online)| else 0
      invariant degraded == if Degraded in keys then |Having(rows, StatusOf, Degraded)| else 0
      invariant offline == if Offline in keys then |Having(rows, StatusOf, Offline)| else 0
    {
      var (status, count) := groups[i];
      KeysSnoc(groups, i);
      WithinSnoc(rows, StatusOf, keys, status);
      assert groups[i] in groups;
      keys := keys + {status};
      total := total + count;
      match status {
        case Online => online := count;
        case Degraded => degraded := count;
        case Offline => offline := count;
        case OtherStatus(_) =>
      }
    }
    AllKeys(rows, StatusOf, groups);
    forall k: NodeStatus | k !in keys
      ensures |Having(rows, StatusOf, k)| == 0
    {
      AbsentKey(rows, StatusOf, groups, k);
    }
  }

  /** Each parameter is what one of the four queries returned. */
  method GetSummary(rows: Rows, byStatus: seq<(NodeStatus, nat)>, byRole: seq<(Role, nat)>,
                    byRegion: seq<(string, nat)>, compliant: nat)
    returns (s: Summary)
    requires IsGrouping(rows, StatusOf, byStatus) && IsGrouping(rows, RoleOf, byRole)
    requires IsGrouping(Regional(rows), RegionOf, byRegion) && compliant == |Clean(rows)|
    ensures IsSummary(rows, s)
  {
    var total, online, degraded, offline := CountStatuses(rows, byStatus);
    var roles := Collect(rows, RoleOf, byRole);
    var regions := Collect(Regional(rows), RegionOf, byRegion);
    s := Summary(total, online, degraded, offline, roles, regions, compliant);
  }

  ghost predicate IsSummary(rows: Rows, s: Summary) {
    && s.totalNodes == |rows|
    && s.online == |Having(rows, StatusOf, Online)|
    && s.degraded == |Having(rows, StatusOf, Degraded)|
    && s.offline == |Having(rows, StatusOf, Offline)|
    && Tallies(rows, RoleOf, s.byRole)
    && Tallies(Regional(rows), RegionOf, s.byRegion)
    && s.fullyCompliant == |Clean(rows)|
  }

  /** The map holds each value that occurs with its number of rows. */
  ghost predicate Tallies<K(!new)>(rows: Rows, column: Node -> K, m: map<K, nat>) {
    && (forall k <- m :: m[k] == |Having(rows, column, k)|)
    && (forall id <- rows :: column(rows[id]) in m)
    && (forall k :: k in m ==> m[k] > 0)
  }

  method Collect<K(!new, ==)>(rows: Rows, column: Node -> K, groups: seq<(K, nat)>) returns (m: map<K, nat>)
    requires IsGrouping(rows, column, groups)
    ensures Tallies(rows, column, m)
  {
    m := map[];
    for i := 0 to |groups|
      invariant forall k <- m :: m[k] == |Having(rows, column, k)| > 0
      invariant forall j :: 0 <= j < i ==> groups[j].0 in m
    {
      m := m[groups[i].0 := groups[i].1];
    }
  }

  lemma KeysSnoc<K>(groups: seq<(K, nat)>, i: nat)
    requires i < |groups| && forall a, b :: 0 <= a < b < |groups| ==> groups[a].0 != groups[b].0
    ensures KeysOf(groups[..i + 1]) == KeysOf(groups[..i]) + {groups[i].0}
    ensures groups[i].0 !in KeysOf(groups[..i])
  {
    assert groups[..i + 1] == groups[..i] + [groups[i]];
  }

  lemma AllKeys<K>(rows: Rows, column: Node -> K, groups: seq<(K, nat)>)
    requires IsGrouping(rows, column, groups)
    ensures Within(rows, column, KeysOf(groups[..|groups|])) == rows.Keys
  {
    assert groups[..|groups|] == groups;
  }

  lemma AbsentKey<K>(rows: Rows, column: Node -> K, groups: seq<(K, nat)>, k: K)
    requires IsGrouping(rows, column, groups) && k !in KeysOf(groups[..|groups|])
    ensures |Having(rows, column, k)| == 0
  {
    assert groups[..|groups|] == groups;
    assert Having(rows, column, k) == {};
  }

  // ---- conservation ----

  ghost function Sum<K>(m: map<K, nat>, keys: set<K>): nat
    requires keys <= m.Keys
  {
    if keys == {} then 0 else
      var k :| k in keys; m[k] + Sum(m, keys - {k})
  }

  lemma {:induction false} SumIsWithin<K(!new)>(rows: Rows, column: Node -> K, m: map<K, nat>, keys: set<K>)
    requires Tallies(rows, column, m) && keys <= m.Keys
    ensures Sum(m, keys) == |Within(rows, column, keys)|
    decreases |keys|
  {
    if keys == {} {
      assert Within(rows, column, keys) == {};
    } else {
      forall k | k in keys
        ensures m[k] + Sum(m, keys - {k}) == |Within(rows, column, keys)|
      {
        SumIsWithin(rows, column, m, keys - {k});
        WithinSnoc(rows, column, keys - {k}, k);
        assert keys - {k} + {k} == keys;
      }
    }
  }

  lemma SumIsAll<K(!new)>(rows: Rows, column: Node -> K, m: map<K, nat>)
    requires Tallies(rows, column, m)
    ensures Sum(m, m.Keys) == |rows|
  {
    SumIsWithin(rows, column, m, m.Keys);
    assert Within(rows, column, m.Keys) == rows.Keys;
  }

  /** The three status counts cover the total exactly when every row has one of the three statuses. */
  lemma StatusesCoverTotal(rows: Rows, s: Summary)
    requires IsSummary(rows, s)
    ensures s.totalNodes == s.online + s.degraded + s.offline <==> AllKnown(rows)
  {
    ThreeStatuses(rows);
  }

  lemma ThreeStatuses(rows: Rows)
    ensures |rows| == |Having(rows, StatusOf, Online)| + |Having(rows, StatusOf, Degraded)| + |Having(rows, StatusOf, Offline)|
            <==> AllKnown(rows)
  {
    var on, deg, off := Having(rows, StatusOf, Online), Having(rows, StatusOf, Degraded), Having(rows, StatusOf, Offline);
    var rest := rows.Keys - on - deg - off;
    assert |rows| == |rows.Keys|;
    Cover(rows.Keys, on, deg, off);
    if rest == {} {
      assert forall id <- rows :: id in on || id in deg || id in off;
    } else {
      var id :| id in rest;
      assert !KnownStatus(rows[id].status) && |rest| > 0;
    }
  }

  lemma Cover(all: set<NodeId>, a: set<NodeId>, b: set<NodeId>, c: set<NodeId>)
    requires a <= all && b <= all && c <= all && a !! b && a !! c && b !! c
    ensures |all| == |a| + |b| + |c| + |all - a - b - c|
  {
    assert all == a + b + c + (all - a - b - c);
    assert |a + b| == |a| + |b| && |a + b + c| == |a + b| + |c|;
  }

  /** The fully compliant rows are online or degraded. */
  lemma CleanAreUp(rows: Rows)
    requires AllKnown(rows)
    ensures |Clean(rows)| <= |Having(rows, StatusOf, Online)| + |Having(rows, StatusOf, Degraded)|
  {
    var on, deg := Having(rows, StatusOf, Online), Having(rows, StatusOf, Degraded);
    assert on !! deg;
    assert |on + deg| == |on| + |deg|;
    forall id | id in Clean(rows)
      ensures id in on + deg
    {
      assert KnownStatus(rows[id].status);
    }
    SetMonotone(Clean(rows), on + deg);
  }

  lemma Parts(all: set<NodeId>, a: set<NodeId>, b: set<NodeId>, c: set<NodeId>)
    requires all == a + b + c && a !! b && a !! c && b !! c
    ensures |all| == |a| + |b| + |c|
  {
    assert |a + b| == |a| + |b|;
  }

  /** Nodes that are not offline and have a failed check. */
  function Failing(rows: Rows): set<NodeId> {
    set id | id in rows && rows[id].failed != 0 && rows[id].status != Offline
  }

  function Placeless(rows: Rows): set<NodeId> {
    set id | id in rows && rows[id].region == ""
  }

  lemma FailingRows(rows: Rows)
    ensures rows.Keys == Clean(rows) + Having(rows, StatusOf, Offline) + Failing(rows)
    ensures Clean(rows) !! Having(rows, StatusOf, Offline) && Clean(rows) !! Failing(rows) && Having(rows, StatusOf, Offline) !! Failing(rows)
  {
  }

  lemma PlacelessRows(rows: Rows)
    ensures rows.Keys == Regional(rows).Keys + Placeless(rows) + {} && Regional(rows).Keys !! Placeless(rows)
  {
  }

  /** Over any table: a node that is not fully compliant is offline or has failures, and the regional counts leave
      out exactly the nodes without a region. */
  lemma NothingGoesUncounted(rows: Rows, s: Summary)
    requires IsSummary(rows, s)
    ensures s.totalNodes == s.fullyCompliant + s.offline + |Failing(rows)|
    ensures s.totalNodes == Sum(s.byRegion, s.byRegion.Keys) + |Placeless(rows)|
  {
    FailingRows(rows);
    Parts(rows.Keys, Clean(rows), Having(rows, StatusOf, Offline), Failing(rows));
    PlacelessRows(rows);
    Parts(rows.Keys, Regional(rows).Keys, Placeless(rows), {});
    SumIsAll(Regional(rows), RegionOf, s.byRegion);
    assert |rows| == |rows.Keys| && |Regional(rows)| == |Regional(rows).Keys|;
  }

  lemma {:induction false} SetMonotone(a: set<NodeId>, b: set<NodeId>)
    requires a <= b
    ensures |a| <= |b|
  {
    assert b == a + (b - a);
  }

  /** Over any table with known statuses the summary adds up. */
  lemma KnownRowsAddUp(rows: Rows, s: Summary)
    requires IsSummary(rows, s) && AllKnown(rows)
    ensures s.totalNodes == s.online + s.degraded + s.offline
    ensures s.totalNodes == Sum(s.byRole, s.byRole.Keys)
    ensures Sum(s.byRegion, s.byRegion.Keys) == |Regional(rows)|
    ensures s.fullyCompliant <= s.online + s.degraded
  {
    StatusesCoverTotal(rows, s);
    SumIsAll(rows, RoleOf, s.byRole);
    SumIsAll(Regional(rows), RegionOf, s.byRegion);
    CleanAreUp(rows);
  }

  /** In every reachable state the summary adds up. */
  lemma {:induction false} SummaryAddsUp(limits: Limits, policy0: Policy, clock0: Time, steps: seq<Step>, s: Summary)
    requires IsSummary(After(limits, Start(policy0, clock0), steps).db.nodes, s)
    ensures s.totalNodes == s.online + s.degraded + s.offline
    ensures s.totalNodes == Sum(s.byRole, s.byRole.Keys)
    ensures Sum(s.byRegion, s.byRegion.Keys) == |Regional(After(limits, Start(policy0, clock0), steps).db.nodes)|
    ensures s.fullyCompliant <= s.online + s.degraded
  {
    StatusesStayKnown(limits, policy0, clock0, steps);
    KnownRowsAddUp(After(limits, Start(policy0, clock0), steps).db.nodes, s);
  }
}
