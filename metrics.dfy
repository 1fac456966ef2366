/**
  The metric rules of `takeSnapshot` and `getActiveStaffCount`
  (src/lib/simulationEngine.ts): resource capacities by name, utilization, the p95 wait,
  the colour rule, deaths per node and on-duty staff per role.
 */
module Metrics {
  import opened Wrappers
  import opened SimulationTypes

  /** The keys of the resource dictionary. */
  datatype Resource =
    | TriageRes | EdRes | Ct | Ultrasound | Xray | ResultReview | OrRes | IcuRes | WardRes | ObsRes
    | Elevator

  /** The string the source uses as the key of a resource. */
  function ResourceKey(r: Resource): string {
    match r
    case TriageRes => "triage"
    case EdRes => "ed"
    case Ct => "ct"
    case Ultrasound => "ultrasound"
    case Xray => "xray"
    case ResultReview => "resultReview"
    case OrRes => "or"
    case IcuRes => "icu"
    case WardRes => "ward"
    case ObsRes => "obs"
    case Elevator => "elevator"
  }

  /** The resource whose key is the node's name, if there is one. */
  function NodeResource(n: Node): Option<Resource> {
    if n == Obs then Some(ObsRes)
    else if n == Icu then Some(IcuRes)
    else if n == Ward then Some(WardRes)
    else None
  }

  /** No two resources share a key, so a dictionary keyed by `Resource` is one keyed by
      the source's strings. */
  lemma ResourceKeysDistinct(a: Resource, b: Resource)
    ensures ResourceKey(a) == ResourceKey(b) <==> a == b
  {
    if a != b {
      var x, y := ResourceKey(a), ResourceKey(b);
      assert |x| != |y| || x[0] != y[0];
    }
  }

  /** Utilization looks a resource up by node name: the key that is the node's name is
      exactly the key of `NodeResource(n)`, so only obs, icu and ward find one. */
  lemma SharedNames(n: Node, r: Resource)
    ensures ResourceKey(r) == NodeName(n) <==> NodeResource(n) == Some(r)
  {
    if NodeResource(n).Some? {
      ResourceKeysDistinct(r, NodeResource(n).value);
    } else {
      KeyShape(r);
      NameShape(n);
    }
  }

  /** A resource key has no underscore and is neither 7 nor 9 characters long. */
  lemma KeyShape(r: Resource)
    ensures '_' !in ResourceKey(r) && |ResourceKey(r)| != 7 && |ResourceKey(r)| != 9
  {
  }

  /** The name of a node without a resource has an underscore or is 7 or 9 characters long;
      the name of one with a resource is that resource's key. */
  lemma NameShape(n: Node)
    ensures NodeResource(n).None? ==> '_' in NodeName(n) || |NodeName(n)| == 7 || |NodeName(n)| == 9
    ensures NodeResource(n).Some? ==> NodeName(n) == ResourceKey(NodeResource(n).value)
  {
    match n
    case TriageQueue | TriageService => assert NodeName(n)[6] == '_';
    case EdQueue | EdService => assert NodeName(n)[2] == '_';
    case ImagingQueue | ImagingService => assert NodeName(n)[7] == '_';
    case ResultReviewQueue | ResultReviewService => assert NodeName(n)[6] == '_';
    case OrQueue => assert NodeName(n)[2] == '_';
    case InOr => assert NodeName(n)[2] == '_';
    case IcuWait => assert NodeName(n)[3] == '_';
    case TransferOut => assert NodeName(n)[8] == '_';
    case ElevatorQueue => assert NodeName(n)[8] == '_';
    case _ =>
  }

  /** `resources[node] || 1`: the capacity of the node's resource if there is one and it is
      not 0, else 1. */
  function Capacity(resources: map<Resource, int>, n: Node): (c: int)
    ensures c != 0
    ensures NodeResource(n).None? ==> c == 1
  {
    var r := NodeResource(n);
    if r.Some? && r.value in resources && resources[r.value] != 0 then resources[r.value] else 1
  }

  /** A queue length over a capacity. */
  function Utilization(queueLength: nat, capacity: int): (u: real)
    requires capacity != 0
    ensures queueLength == 0 ==> u == 0.0
    ensures capacity > 0 ==> u >= 0.0
  {
    queueLength as real / capacity as real
  }

  /** The colour rule: red when utilization is above 0.95 and the p95 wait above 10,
      otherwise orange when utilization is above 0.85, otherwise green. */
  function ColourOf(utilization: real, p95Wait: real): Colour {
    if utilization > 0.95 && p95Wait > 10.0 then Red
    else if utilization > 0.85 then Orange
    else Green
  }

  function Rank(c: Colour): nat {
    match c
    case Green => 0
    case Orange => 1
    case Red => 2
  }

  /** A busier node or a longer p95 wait never gets a milder colour; no node at or below
      0.85 utilization is anything but green; a p95 wait of at most 10 is never red. */
  lemma ColourMonotone(u1: real, p1: real, u2: real, p2: real)
    requires u1 <= u2 && p1 <= p2
    ensures Rank(ColourOf(u1, p1)) <= Rank(ColourOf(u2, p2))
    ensures u1 <= 0.85 ==> ColourOf(u1, p1) == Green
    ensures p1 <= 10.0 ==> ColourOf(u1, p1) != Red
  {
  }

  /** Numbers in ascending order. */
  predicate Ascending(s: seq<real>) {
    forall i, j :: 0 <= i < j < |s| ==> s[i] <= s[j]
  }

  /** `x` placed into an ascending sequence. */
  function InsertAscending(x: real, s: seq<real>): (r: seq<real>)
    requires Ascending(s)
    ensures Ascending(r) && multiset(r) == multiset(s) + multiset{x} && |r| == |s| + 1
  {
    if s == [] || x <= s[0] then
      assert forall i :: 0 <= i < |s| ==> x <= s[i] by {
        if s != [] {
          AscendingAround(s, 0);
        }
      }
      AscendingCons(x, s);
      [x] + s
    else
      AscendingTail(s);
      var rest := InsertAscending(x, s[1..]);
      assert multiset(s) == multiset{s[0]} + multiset(s[1..]) by {
        assert s == [s[0]] + s[1..];
      }
      AboveHead(s, x, rest);
      AscendingCons(s[0], rest);
      [s[0]] + rest
  }

  /** A sequence whose every entry is at most the next is ascending. */
  lemma {:induction false} AscendingSteps(s: seq<real>)
    requires forall i :: 0 <= i < |s| - 1 ==> s[i] <= s[i + 1]
    ensures Ascending(s)
  {
    if s != [] {
      var t := s[1..];
      assert forall i :: 0 <= i < |t| - 1 ==> t[i] <= t[i + 1] by {
        assert forall i :: 0 <= i < |t| ==> t[i] == s[i + 1];
      }
      AscendingSteps(t);
      forall i | 0 <= i < |t| ensures s[0] <= t[i] {
        assert s[0] <= s[1] == t[0];
        assert i == 0 || t[0] <= t[i];
      }
      AscendingCons(s[0], t);
      assert s == [s[0]] + t;
    }
  }

  /** An entry no larger than every entry of an ascending sequence can go in front of it. */
  lemma AscendingCons(h: real, t: seq<real>)
    requires Ascending(t) && forall i :: 0 <= i < |t| ==> h <= t[i]
    ensures Ascending([h] + t)
  {
    var r := [h] + t;
    forall i, j | 0 <= i < j < |r| ensures r[i] <= r[j] {
      assert r[j] == t[j - 1];
      if i > 0 {
        assert r[i] == t[i - 1];
      }
    }
  }

  /** The tail of `s` with `x` added holds nothing below the head of `s`, when `x` is above
      that head. */
  lemma AboveHead(s: seq<real>, x: real, rest: seq<real>)
    requires s != [] && Ascending(s) && s[0] < x
    requires multiset(rest) == multiset(s[1..]) + multiset{x}
    ensures forall i :: 0 <= i < |rest| ==> s[0] <= rest[i]
  {
    forall i | 0 <= i < |rest| ensures s[0] <= rest[i] {
      assert rest[i] in multiset(rest);
      if rest[i] != x {
        assert rest[i] in multiset(s[1..]);
        var j :| 0 <= j < |s[1..]| && s[1..][j] == rest[i];
        assert s[j + 1] == rest[i];
      }
    }
  }

  /** The waits sorted by `(a, b) => a - b`: ascending, and a permutation of the input. */
  function SortAscending(s: seq<real>): (r: seq<real>)
    ensures Ascending(r) && multiset(r) == multiset(s) && |r| == |s|
  {
    if s == [] then []
    else
      assert s == s[..|s| - 1] + [s[|s| - 1]];
      InsertAscending(s[|s| - 1], SortAscending(s[..|s| - 1]))
  }

  /** An ascending permutation is unique, so any correct sort of the waits gives this one. */
  lemma {:induction false} AscendingUnique(a: seq<real>, b: seq<real>)
    requires Ascending(a) && Ascending(b) && multiset(a) == multiset(b)
    ensures a == b
  {
    if a != [] && b != [] {
      SameHead(a, b);
      AscendingTail(a);
      AscendingTail(b);
      SameTail(a, b);
      AscendingUnique(a[1..], b[1..]);
      assert a == [a[0]] + a[1..] && b == [b[0]] + b[1..];
    } else {
      assert |multiset(a)| == |a| && |multiset(b)| == |b|;
    }
  }

  /** Two ascending permutations of each other start with the same least element. */
  lemma SameHead(a: seq<real>, b: seq<real>)
    requires a != [] && b != [] && Ascending(a) && Ascending(b) && multiset(a) == multiset(b)
    ensures a[0] == b[0]
  {
    assert a[0] in multiset(a) && b[0] in multiset(b);
    LeastIsFirst(a, b[0]);
    LeastIsFirst(b, a[0]);
  }

  lemma LeastIsFirst(a: seq<real>, x: real)
    requires a != [] && Ascending(a) && x in multiset(a)
    ensures a[0] <= x
  {
    var i :| 0 <= i < |a| && a[i] == x;
    assert i == 0 || a[0] <= a[i];
  }

  lemma AscendingTail(a: seq<real>)
    requires a != [] && Ascending(a)
    ensures Ascending(a[1..])
  {
    var t := a[1..];
    forall i, j | 0 <= i < j < |t| ensures t[i] <= t[j] {
      assert t[i] == a[i + 1] && t[j] == a[j + 1];
    }
  }

  lemma SameTail(a: seq<real>, b: seq<real>)
    requires a != [] && b != [] && a[0] == b[0] && multiset(a) == multiset(b)
    ensures multiset(a[1..]) == multiset(b[1..])
  {
    assert a == [a[0]] + a[1..] && b == [b[0]] + b[1..];
    assert multiset(a[1..]) == multiset(a) - multiset{a[0]};
    assert multiset(b[1..]) == multiset(b) - multiset{b[0]};
  }

  /** In an ascending sequence, entries before index `k` are at most the `k`-th, and entries
      from it on at least the `k`-th. */
  lemma AscendingAround(s: seq<real>, k: nat)
    requires Ascending(s) && k < |s|
    ensures forall i :: 0 <= i <= k ==> s[i] <= s[k]
    ensures forall i :: k <= i < |s| ==> s[i] >= s[k]
  {
  }

  /** The p95 index `floor(n * 0.95)`. */
  function P95Index(n: nat): (k: nat)
    requires n > 0
    ensures k < n
  {
    (n as real * 0.95).Floor
  }

  /** The p95 wait: the entry at the p95 index of the sorted waits, or 0 when there are none. */
  function P95(waits: seq<real>): real {
    if |waits| > 0 then SortAscending(waits)[P95Index(|waits|)] else 0.0
  }

  /** The p95 wait is 0 for no waits; otherwise it is one of the waits, every sorted wait up
      to the p95 index is at most it and every one from the index on is at least it. */
  lemma P95Facts(waits: seq<real>)
    ensures waits == [] ==> P95(waits) == 0.0
    ensures waits != [] ==> P95(waits) in multiset(waits)
    ensures waits != [] ==> forall i :: 0 <= i <= P95Index(|waits|) ==> SortAscending(waits)[i] <= P95(waits)
    ensures waits != [] ==> forall i :: P95Index(|waits|) <= i < |waits| ==> SortAscending(waits)[i] >= P95(waits)
  {
    if waits != [] {
      var s := SortAscending(waits);
      var k := P95Index(|waits|);
      assert s[k] in multiset(s);
      AscendingAround(s, k);
    }
  }

  lemma SamePermutation(w: seq<real>, sorted: seq<real>)
    requires w == [5.0, 100.0, 10.0, 15.0, 10.0] && sorted == [5.0, 10.0, 10.0, 15.0, 100.0]
    ensures multiset(w) == multiset(sorted)
  {
  }

  /** The waits 5, 100, 10, 15, 10 sort to 5, 10, 10, 15, 100. */
  lemma ExampleSorted(w: seq<real>, sorted: seq<real>)
    requires w == [5.0, 100.0, 10.0, 15.0, 10.0] && sorted == [5.0, 10.0, 10.0, 15.0, 100.0]
    ensures SortAscending(w) == sorted
  {
    AscendingSteps(sorted);
    SamePermutation(w, sorted);
    AscendingUnique(SortAscending(w), sorted);
  }

  /** For the waits 5, 100, 10, 15, 10 the index is 4 and the p95 wait is 100. */
  lemma P95Example(w: seq<real>)
    requires w == [5.0, 100.0, 10.0, 15.0, 10.0]
    ensures P95Index(|w|) == 4 && P95(w) == 100.0
  {
    ExampleSorted(w, [5.0, 10.0, 10.0, 15.0, 100.0]);
    assert P95Index(5) == 4;
  }

  /** How many entries of `xs` have key `k`; `key` gives no key for entries not counted. */
  function Tally<T, K(==)>(xs: seq<T>, key: T -> Option<K>, k: K): nat {
    if xs == [] then 0
    else Tally(xs[..|xs| - 1], key, k) + (if key(xs[|xs| - 1]) == Some(k) then 1 else 0)
  }

  /** How many entries of `xs` have a key at all. */
  function Keyed<T, K>(xs: seq<T>, key: T -> Option<K>): nat {
    if xs == [] then 0
    else Keyed(xs[..|xs| - 1], key) + (if key(xs[|xs| - 1]).Some? then 1 else 0)
  }

  /** The tallies of the keys `ks`, added up. */
  function SumTallies<T, K(==)>(xs: seq<T>, key: T -> Option<K>, ks: seq<K>): nat {
    if ks == [] then 0 else Tally(xs, key, ks[0]) + SumTallies(xs, key, ks[1..])
  }

  lemma {:induction false} SumTalliesLast<T, K>(xs: seq<T>, key: T -> Option<K>, ks: seq<K>)
    requires xs != []
    ensures SumTallies(xs, key, ks) ==
            SumTallies(xs[..|xs| - 1], key, ks) +
            (if key(xs[|xs| - 1]).Some? then Occurrences(ks, key(xs[|xs| - 1]).value) else 0)
  {
    if ks != [] {
      SumTalliesLast(xs, key, ks[1..]);
    }
  }

  /** When every key occurs once in `ks`, the tallies over `ks` add up to the keyed entries. */
  lemma {:induction false} TallyPartition<T, K>(xs: seq<T>, key: T -> Option<K>, ks: seq<K>)
    requires forall k :: Occurrences(ks, k) == 1
    ensures SumTallies(xs, key, ks) == Keyed(xs, key)
  {
    if xs == [] {
      SumTalliesEmpty(key, ks);
    } else {
      SumTalliesLast(xs, key, ks);
      TallyPartition(xs[..|xs| - 1], key, ks);
      var last := key(xs[|xs| - 1]);
      if last.Some? {
        assert Occurrences(ks, last.value) == 1;
      }
    }
  }

  lemma {:induction false} SumTalliesEmpty<T, K>(key: T -> Option<K>, ks: seq<K>)
    ensures SumTallies([], key, ks) == 0
  {
    if ks != [] {
      SumTalliesEmpty(key, ks[1..]);
    }
  }

  /** The node a death is logged at. */
  function DeathNode(d: DeathRecord): Option<Node> {
    Some(d.location)
  }

  /** `deaths.filter(d => d.location === node).length`. */
  function DeathsAt(deaths: seq<DeathRecord>, n: Node): nat {
    Tally(deaths, DeathNode, n)
  }

  /** The per-node death counts of a snapshot add up to the length of the death log. */
  lemma DeathsAddUp(deaths: seq<DeathRecord>)
    ensures SumTallies(deaths, DeathNode, AllNodes) == |deaths|
  {
    forall n ensures Occurrences(AllNodes, n) == 1 {
      AllNodesOnce(n);
    }
    TallyPartition(deaths, DeathNode, AllNodes);
    KeyedAll(deaths);
  }

  lemma {:induction false} KeyedAll(deaths: seq<DeathRecord>)
    ensures Keyed(deaths, DeathNode) == |deaths|
  {
    if deaths != [] {
      KeyedAll(deaths[..|deaths| - 1]);
    }
  }

  /** The role an agent counts under in `activeStaff`, if they are on duty. */
  function ActiveRole(a: StaffAgent): Option<Role> {
    if a.state == OnDuty then Some(a.role) else None
  }

  /** What `getActiveStaffCount` returns for `staff`: a key exactly for each role with an agent
      on duty, mapped to the number of such agents. */
  ghost predicate CountsActive(counts: map<Role, nat>, staff: seq<StaffAgent>) {
    forall r :: (r in counts <==> Tally(staff, ActiveRole, r) > 0) &&
                (r in counts ==> counts[r] == Tally(staff, ActiveRole, r))
  }

  /** The counts of `activeStaff`, 0 for a missing role, added up over `roles`. */
  function SumCounts(counts: map<Role, nat>, roles: seq<Role>): nat {
    if roles == [] then 0
    else (if roles[0] in counts then counts[roles[0]] else 0) + SumCounts(counts, roles[1..])
  }

  /** The `activeStaff` counts add up to the number of agents on duty. */
  lemma ActiveStaffAddsUp(counts: map<Role, nat>, staff: seq<StaffAgent>)
    requires CountsActive(counts, staff)
    ensures SumCounts(counts, StaffRoles) == Keyed(staff, ActiveRole)
  {
    forall r ensures Occurrences(StaffRoles, r) == 1 {
      StaffRolesOnce(r);
    }
    SumCountsTallies(counts, staff, StaffRoles);
    TallyPartition(staff, ActiveRole, StaffRoles);
  }

  lemma {:induction false} SumCountsTallies(counts: map<Role, nat>, staff: seq<StaffAgent>, roles: seq<Role>)
    requires CountsActive(counts, staff)
    ensures SumCounts(counts, roles) == SumTallies(staff, ActiveRole, roles)
  {
    if roles != [] {
      SumCountsTallies(counts, staff, roles[1..]);
    }
  }

  /** The metrics `takeSnapshot` reports for node `n` with a queue of `queueLength` patients
      and the recorded `waits`. */
  function NodeMetricsOf(n: Node, queueLength: nat, resources: map<Resource, int>, waits: seq<real>,
                         deaths: seq<DeathRecord>): NodeMetrics
  {
    var u := Utilization(queueLength, Capacity(resources, n));
    var p := P95(waits);
    NodeMetrics(n, queueLength, u, p, DeathsAt(deaths, n), ColourOf(u, p))
  }

  /** A node with an empty queue and no recorded waits, as every node is throughout a run,
      reads utilization 0, p95 wait 0 and green. */
  lemma IdleNode(n: Node, resources: map<Resource, int>, deaths: seq<DeathRecord>)
    ensures NodeMetricsOf(n, 0, resources, [], deaths) == NodeMetrics(n, 0, 0.0, 0.0, DeathsAt(deaths, n), Green)
  {
    P95Facts([]);
  }
}
