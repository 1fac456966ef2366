/**
  The discrete-event engine of src/lib/simulationEngine.ts: a seeded generator, a roster
  of staff agents, the patients created so far, the event list, the resource capacities,
  the per-node queues and wait records, the death log and the snapshots.

  Patients and staff agents are referred to by their index in `patients` and `staff`; the
  source's closures hold the objects themselves, and the updates it makes through them are
  updates of those entries here.
 */
module Engine {
  import opened Wrappers
  import opened Random
  import opened SimulationTypes
  import opened Routing
  import opened Events
  import opened Metrics
  import opened Schedule

  /* ---------------------------------------------------------------- patients */

  /** The severity class of a score: thresholds 0.25, 0.5 and 0.75. */
  function SeverityOf(score: real): SeverityClass {
    if score < 0.25 then Minor
    else if score < 0.5 then Moderate
    else if score < 0.75 then Severe
    else Critical
  }

  function SeverityRank(c: SeverityClass): nat {
    match c
    case Minor => 0
    case Moderate => 1
    case Severe => 2
    case Critical => 3
  }

  /** A higher score never gives a milder class; the mildest and gravest classes are
      exactly the scores below 0.25 and from 0.75 on. */
  lemma SeverityMonotone(a: real, b: real)
    requires a <= b
    ensures SeverityRank(SeverityOf(a)) <= SeverityRank(SeverityOf(b))
    ensures SeverityOf(a) == Minor <==> a < 0.25
    ensures SeverityOf(a) == Critical <==> a >= 0.75
  {
  }

  /** `Math.floor(u * 7)`: the slot of the injury type drawn by `u`. */
  function InjuryIndex(u: real): (k: int)
    requires 0.0 <= u < 1.0
    ensures 0 <= k < |InjuryTypes|
  {
    (u * 7.0).Floor
  }

  /** The injury types are drawn in equal bands of width 1/7. */
  lemma InjuryBands(u: real, k: nat)
    requires 0.0 <= u < 1.0 && k < 7
    ensures InjuryIndex(u) == k <==> k as real <= u * 7.0 < k as real + 1.0
  {
  }

  /** What a patient record must satisfy while it is the `i`-th entry of the patient list:
      its id is `i`, its path is a route from arrival ending at its current node, it is
      discharged only at a terminal node, and its class agrees with its score. */
  ghost predicate PatientOk(p: Patient, i: nat) {
    && p.id == i
    && p.path != [] && p.path[0] == Arrival && IsRoute(p.path)
    && p.path[|p.path| - 1] == p.currentNode
    && (p.discharged ==> Terminal(p.currentNode))
    && p.severityClass == SeverityOf(p.severityScore)
  }

  /** Every entry of the patient list is well formed for its position. */
  ghost predicate PatientsOk(ps: seq<Patient>) {
    forall i :: 0 <= i < |ps| ==> PatientOk(ps[i], i)
  }

  lemma PatientsOkSet(ps: seq<Patient>, i: nat, p: Patient)
    requires PatientsOk(ps) && i < |ps| && PatientOk(p, i)
    ensures PatientsOk(ps[i := p])
  {
  }

  lemma PatientsOkAppend(ps: seq<Patient>, p: Patient)
    requires PatientsOk(ps) && PatientOk(p, |ps|)
    ensures PatientsOk(ps + [p])
  {
  }

  /** The patient `generatePatient` builds at time `time` with id `id` from the draws `u1`
      (injury type) and `u2` (severity score). */
  function NewPatient(id: nat, time: real, u1: real, u2: real): (p: Patient)
    requires 0.0 <= u1 < 1.0 && 0.0 <= u2 < 1.0
    ensures PatientOk(p, id) && !p.discharged && p.currentNode == Arrival
    ensures p.injuryType == InjuryTypes[InjuryIndex(u1)]
    ensures p.severityScore == u2 && 0.0 <= p.severityScore < 1.0
    ensures p.arrivalTime == time && p.queueEntryTime == time && p.totalWaitTime == 0.0
    ensures p.deathTime.None? && p.deathLocation.None? && p.deathReason.None?
  {
    var score := UniformValue(u2, 0.0, 1.0);
    Patient(id, time, InjuryTypes[InjuryIndex(u1)], score, SeverityOf(score), Arrival, time, 0.0,
            [Arrival], false, None, None, None, None, None)
  }

  /** The record after one routing step: moved to the next node, or discharged when there is
      none. */
  function Moved(p: Patient, next: Option<Node>): Patient {
    if next.Some? then p.(currentNode := next.value, path := p.path + [next.value])
    else p.(discharged := true)
  }

  /** A routing step keeps a patient record well formed, and never leaves more routing steps
      ahead of the patient than before (strictly fewer for a patient not yet discharged). */
  lemma MovedOk(p: Patient, i: nat, u: real)
    requires PatientOk(p, i)
    ensures PatientOk(Moved(p, Successor(p.currentNode, u)), i)
    ensures Successor(p.currentNode, u).Some? ==>
              !p.discharged && PatientWeight(Moved(p, Successor(p.currentNode, u))) < PatientWeight(p)
    ensures PatientWeight(Moved(p, Successor(p.currentNode, u))) <= PatientWeight(p)
  {
    var next := Successor(p.currentNode, u);
    SuccessorFacts(p.currentNode, u, u);
    SuccessorDecreases(p.currentNode, u);
    if next.Some? {
      RouteExtend(p.path, u);
    }
  }

  /** The first draw a routing step consumes, 0 when it consumes none. */
  function RouteDraw(n: Node, seed: nat): real {
    if NeedsDraw(n) then Draw(seed, 1) else 0.0
  }

  /** The draws a routing decision consumes. */
  function RouteDraws(n: Node): nat {
    if NeedsDraw(n) then 1 else 0
  }

  /* ---------------------------------------------------------------- resources */

  /** The capacities `initializeResources` sets: the base capacities, except that the night
      scenario has 1 triage and 2 ED places. */
  function InitialResources(s: Scenario): map<Resource, int> {
    map[TriageRes := if s == Daytime then 4 else 1,
        EdRes := if s == Daytime then 20 else 2,
        Ct := 1, Ultrasound := 4, Xray := 2, ResultReview := 4, OrRes := 8,
        IcuRes := 44, WardRes := 256, ObsRes := 20, Elevator := 2]
  }

  /** Every resource starts with a capacity, and a positive one; the night scenario has
      fewer triage and ED places than the day and the same of everything else. */
  lemma InitialResourcesKeys(s: Scenario)
    ensures forall k: Resource :: k in InitialResources(s)
  {
    forall k: Resource ensures k in InitialResources(s) {
      InitialResourcesFacts(k);
    }
  }

  lemma InitialResourcesFacts(k: Resource)
    ensures k in InitialResources(Daytime) && InitialResources(Daytime)[k] > 0
    ensures k in InitialResources(Nighttime) && InitialResources(Nighttime)[k] > 0
    ensures k == TriageRes || k == EdRes ==> InitialResources(Nighttime)[k] < InitialResources(Daytime)[k]
    ensures k != TriageRes && k != EdRes ==> InitialResources(Nighttime)[k] == InitialResources(Daytime)[k]
  {
    match k
    case TriageRes =>
    case EdRes =>
    case Ct =>
    case Ultrasound =>
    case Xray =>
    case ResultReview =>
    case OrRes =>
    case IcuRes =>
    case WardRes =>
    case ObsRes =>
    case Elevator =>
  }

  /** The capacities a snapshot divides by at the start: 20 at obs, 44 at icu, 256 at ward,
      and the fallback 1 at every other node. */
  lemma SharedCapacities(s: Scenario, n: Node)
    ensures n == Obs ==> Capacity(InitialResources(s), n) == 20
    ensures n == Icu ==> Capacity(InitialResources(s), n) == 44
    ensures n == Ward ==> Capacity(InitialResources(s), n) == 256
    ensures n != Obs && n != Icu && n != Ward ==> Capacity(InitialResources(s), n) == 1
  {
    var r := InitialResources(s);
    assert r[ObsRes] == 20 && r[IcuRes] == 44 && r[WardRes] == 256;
  }

  /** The capacity change when an agent of role `r` comes on duty: one more ED place for an
      ED doctor, one more triage place for an ED nurse, nothing for the other roles. */
  function StaffCapacity(resources: map<Resource, int>, r: Role): map<Resource, int>
    requires EdRes in resources && TriageRes in resources
  {
    if r == EdDoctor then resources[EdRes := resources[EdRes] + 1]
    else if r == EdNurse then resources[TriageRes := resources[TriageRes] + 1]
    else resources
  }

  /** Only the ED and triage capacities ever change, each by one, and the keys stay the same. */
  lemma StaffCapacityFacts(resources: map<Resource, int>, r: Role, k: Resource)
    requires EdRes in resources && TriageRes in resources && k in resources
    ensures StaffCapacity(resources, r).Keys == resources.Keys
    ensures k != EdRes && k != TriageRes ==> StaffCapacity(resources, r)[k] == resources[k]
    ensures StaffCapacity(resources, r)[EdRes] == resources[EdRes] + (if r == EdDoctor then 1 else 0)
    ensures StaffCapacity(resources, r)[TriageRes] == resources[TriageRes] + (if r == EdNurse then 1 else 0)
  {
  }

  /* ---------------------------------------------------------------- the roster */

  /** Agents per role: 10 in the day scenario, 2 at night. */
  function PerRole(s: Scenario): nat {
    if s == Daytime then 10 else 2
  }

  /** Draws per agent before the show-up test: the show probability, and at night the test
      itself. */
  function RosterDraws(s: Scenario): nat {
    if s == Daytime then 1 else 2
  }

  /** What `initializeStaff` promises about the agent it creates as number `i` of role `r`
      from a generator whose seed is `sd`: role and number, on duty in the day and at home at
      night, a show probability drawn uniformly from [0.85, 0.95) by the first draw; by day no
      arrival time, at night an arrival time exactly when the second draw is below the show
      probability, the third draw mapped through the role's triangular travel time, which lies
      within the role's range. */
  ghost predicate AgentOk(a: StaffAgent, r: Role, i: nat, s: Scenario, sd: nat, m: RealMath) {
    var params := ArrivalParams(r);
    && a.role == r && a.index == i
    && a.state == (if s == Daytime then OnDuty else Home)
    && a.showProbability == UniformValue(Draw(sd, 1), 0.85, 0.95)
    && 0.85 <= a.showProbability < 0.95
    && (s == Daytime ==> a.arrivalTime.None?)
    && (s != Daytime ==> (a.arrivalTime.Some? <==> Draw(sd, 2) < a.showProbability))
    && (a.arrivalTime.Some? ==>
          && a.arrivalTime.value == TriangularValue(Draw(sd, 3), params.min, params.mode, params.max, m)
          && params.min <= a.arrivalTime.value <= params.max)
  }

  /** Agents `0` to `c - 1` of role `r`. */
  function Block(r: Role, c: nat): (b: seq<(Role, nat)>)
    ensures |b| == c && forall i :: 0 <= i < c ==> b[i] == (r, i)
  {
    seq(c, i => (r, i))
  }

  /** The (role, number) pairs `initializeStaff` creates for `roles`, `c` per role. */
  function Plan(roles: seq<Role>, c: nat): seq<(Role, nat)> {
    if roles == [] then [] else Plan(roles[..|roles| - 1], c) + Block(roles[|roles| - 1], c)
  }

  /** One more role adds its block to the plan. */
  lemma PlanSnoc(roles: seq<Role>, c: nat, k: nat)
    requires k < |roles|
    ensures Plan(roles[..k + 1], c) == Plan(roles[..k], c) + Block(roles[k], c)
  {
    assert roles[..k + 1][..k] == roles[..k];
  }

  /** The plan has `c` entries per role. */
  lemma {:induction false} PlanLength(roles: seq<Role>, c: nat)
    ensures |Plan(roles, c)| == |roles| * c
    decreases |roles|
  {
    if roles != [] {
      var n := |roles| - 1;
      PlanLength(roles[..n], c);
      assert |roles| * c == n * c + c;
    }
  }

  /** Agent `i` of the `r`-th role is at position `r * c + i` of the plan. */
  lemma {:induction false} PlanEntry(roles: seq<Role>, c: nat, r: nat, i: nat)
    requires r < |roles| && i < c
    ensures r * c + i < |Plan(roles, c)| && Plan(roles, c)[r * c + i] == (roles[r], i)
    decreases |roles|
  {
    var n := |roles| - 1;
    var init := roles[..n];
    PlanLength(init, c);
    assert Plan(roles, c) == Plan(init, c) + Block(roles[n], c);
    if r < n {
      PlanEntry(init, c, r, i);
      assert init[r] == roles[r];
    } else {
      assert r * c + i == |Plan(init, c)| + i;
    }
  }

  /** The seed agent `p` of `staff` draws from, when the agents from position `lo` on were
      drawn one after the other from seed `s0`. */
  function SlotSeed(staff: seq<StaffAgent>, lo: nat, p: nat, s: Scenario, s0: nat): nat
    requires p <= |staff|
  {
    Advance(s0, RosterDrawCount(staff, lo, p, s))
  }

  /** The agents of `staff` from position `lo` on are the roster `plan` of scenario `s`,
      entry by entry, drawn one after the other from a generator whose seed was `s0`: each
      agent draws from the seed left by the draws of the agents before it. */
  ghost predicate Matches(staff: seq<StaffAgent>, lo: nat, plan: seq<(Role, nat)>, s: Scenario,
                          s0: nat, m: RealMath) {
    && lo <= |staff| && |staff| - lo == |plan|
    && forall p {:trigger SlotSeed(staff, lo, p, s, s0)} :: lo <= p < |staff| ==>
         AgentOk(staff[p], plan[p - lo].0, plan[p - lo].1, s, SlotSeed(staff, lo, p, s, s0), m)
  }

  /** `staff` from position `lo` on is the full roster of scenario `s`, drawn from seed `s0`. */
  ghost predicate RosterFrom(staff: seq<StaffAgent>, lo: nat, s: Scenario, s0: nat, m: RealMath) {
    Matches(staff, lo, Plan(StaffRoles, PerRole(s)), s, s0, m)
  }

  /** The roster holds `PerRole(s)` agents of each role, role by role in the order of
      `StaffRoles`: agent `ii` of the `ri`-th role is at position `ri * PerRole(s) + ii`, and
      draws from the seed the agents before it leave. */
  lemma RosterSlot(staff: seq<StaffAgent>, s: Scenario, s0: nat, m: RealMath, ri: nat, ii: nat)
    requires RosterFrom(staff, 0, s, s0, m) && ri < |StaffRoles| && ii < PerRole(s)
    ensures |staff| == 8 * PerRole(s)
    ensures ri * PerRole(s) + ii < |staff|
    ensures AgentOk(staff[ri * PerRole(s) + ii], StaffRoles[ri], ii, s,
                    SlotSeed(staff, 0, ri * PerRole(s) + ii, s, s0), m)
  {
    PlanLength(StaffRoles, PerRole(s));
    PlanEntry(StaffRoles, PerRole(s), ri, ii);
  }

  /** 1 for an agent with an arrival time, 0 otherwise. */
  function Arrives(a: StaffAgent): nat {
    if a.arrivalTime.Some? then 1 else 0
  }

  /** The number of agents between positions `lo` and `hi` with an arrival time. */
  function Shown(agents: seq<StaffAgent>, lo: nat, hi: nat): nat
    requires hi <= |agents|
    decreases hi
  {
    if hi <= lo then 0 else Shown(agents, lo, hi - 1) + Arrives(agents[hi - 1])
  }

  /** The draws `initializeStaff` makes for the agents between positions `lo` and `hi`:
      `RosterDraws` each, and one more for each agent with an arrival time. */
  function RosterDrawCount(agents: seq<StaffAgent>, lo: nat, hi: nat, s: Scenario): nat
    requires hi <= |agents|
    decreases hi
  {
    if hi <= lo then 0
    else RosterDrawCount(agents, lo, hi - 1, s) + RosterDraws(s) + Arrives(agents[hi - 1])
  }

  lemma {:induction false} RosterDrawTotal(agents: seq<StaffAgent>, lo: nat, hi: nat, s: Scenario)
    requires lo <= hi <= |agents|
    ensures RosterDrawCount(agents, lo, hi, s) == RosterDraws(s) * (hi - lo) + Shown(agents, lo, hi)
    decreases hi
  {
    if hi > lo {
      RosterDrawTotal(agents, lo, hi - 1, s);
    }
  }

  /** The event list `q0` once the arrivals of the agents between positions `lo` and `hi`
      have been scheduled, in roster order. */
  function StaffQueue(q0: seq<Event>, agents: seq<StaffAgent>, lo: nat, hi: nat): seq<Event>
    requires hi <= |agents|
    decreases hi
  {
    if hi <= lo then q0
    else
      var q := StaffQueue(q0, agents, lo, hi - 1);
      if agents[hi - 1].arrivalTime.Some? then Insert(q, Event(agents[hi - 1].arrivalTime.value, StaffArrival(hi - 1)))
      else q
  }

  /** The arrival kinds of the agents between positions `lo` and `hi`. */
  function ArrivalKinds(agents: seq<StaffAgent>, lo: nat, hi: nat): (r: set<EventKind>)
    requires hi <= |agents|
    ensures forall k: nat :: StaffArrival(k) in r <==> lo <= k < hi && agents[k].arrivalTime.Some?
  {
    set j | lo <= j < hi && agents[j].arrivalTime.Some? :: StaffArrival(j)
  }

  lemma ArrivalKindsStep(agents: seq<StaffAgent>, lo: nat, hi: nat)
    requires lo < hi <= |agents|
    ensures ArrivalKinds(agents, lo, hi) ==
            ArrivalKinds(agents, lo, hi - 1) +
            (if agents[hi - 1].arrivalTime.Some? then {StaffArrival(hi - 1)} else {})
  {
    var l, r := ArrivalKinds(agents, lo, hi),
                ArrivalKinds(agents, lo, hi - 1) +
                (if agents[hi - 1].arrivalTime.Some? then {StaffArrival(hi - 1)} else {});
    forall x | x in l ensures x in r {
      var j :| lo <= j < hi && agents[j].arrivalTime.Some? && x == StaffArrival(j);
    }
  }

  /** Appending an agent leaves the counts and the event list of the earlier ones alone. */
  lemma {:induction false} StaffQueueAppend(q0: seq<Event>, agents: seq<StaffAgent>, a: StaffAgent,
                                            lo: nat, hi: nat)
    requires hi <= |agents|
    ensures StaffQueue(q0, agents + [a], lo, hi) == StaffQueue(q0, agents, lo, hi)
    decreases hi
  {
    if hi > lo {
      StaffQueueAppend(q0, agents, a, lo, hi - 1);
      assert (agents + [a])[hi - 1] == agents[hi - 1];
    }
  }

  lemma {:induction false} DrawCountAppend(agents: seq<StaffAgent>, a: StaffAgent, lo: nat, hi: nat, s: Scenario)
    requires hi <= |agents|
    ensures RosterDrawCount(agents + [a], lo, hi, s) == RosterDrawCount(agents, lo, hi, s)
    decreases hi
  {
    if hi > lo {
      DrawCountAppend(agents, a, lo, hi - 1, s);
      assert (agents + [a])[hi - 1] == agents[hi - 1];
    }
  }

  /** Scheduling staff arrivals adds exactly their kinds, keeps the snapshot times, and keeps a
      well-formed list well formed. */
  lemma {:induction false} StaffQueueFacts(q0: seq<Event>, agents: seq<StaffAgent>, lo: nat, hi: nat, np: nat)
    requires hi <= |agents| && QueueOk(q0, np, agents)
    ensures KindsOf(StaffQueue(q0, agents, lo, hi)) == KindsOf(q0) + ArrivalKinds(agents, lo, hi)
    ensures SnapshotTimes(StaffQueue(q0, agents, lo, hi)) == SnapshotTimes(q0)
    ensures QueueOk(StaffQueue(q0, agents, lo, hi), np, agents)
    decreases hi
  {
    if hi > lo {
      StaffQueueFacts(q0, agents, lo, hi - 1, np);
      ArrivalKindsStep(agents, lo, hi);
      var q := StaffQueue(q0, agents, lo, hi - 1);
      if agents[hi - 1].arrivalTime.Some? {
        var e := Event(agents[hi - 1].arrivalTime.value, StaffArrival(hi - 1));
        KindsInsert(q, e);
        SnapshotTimesInsertOther(q, e);
        QueueOkInsert(q, e, np, agents);
      }
    } else {
      assert ArrivalKinds(agents, lo, hi) == {};
    }
  }

  /** Scheduling staff arrivals adds nothing but staff arrivals. */
  lemma {:induction false} StaffQueueMembers(q0: seq<Event>, agents: seq<StaffAgent>, lo: nat, hi: nat)
    requires hi <= |agents|
    ensures forall x :: x in StaffQueue(q0, agents, lo, hi) ==> x in q0 || x.kind.StaffArrival?
    ensures SumBy(StaffQueue(q0, agents, lo, hi), ArrivalShare) == SumBy(q0, ArrivalShare)
    decreases hi
  {
    if hi > lo {
      StaffQueueMembers(q0, agents, lo, hi - 1);
      var q := StaffQueue(q0, agents, lo, hi - 1);
      if agents[hi - 1].arrivalTime.Some? {
        var e := Event(agents[hi - 1].arrivalTime.value, StaffArrival(hi - 1));
        InsertMembers(q, e);
        SumByInsert(q, e, ArrivalShare);
      }
    }
  }

  /** 1 for agent `k`'s staff-arrival event, 0 for any other event. */
  function StaffShare(k: nat): Event -> nat {
    (e: Event) => if e.kind == StaffArrival(k) then 1 else 0
  }

  /** 1 for an agent who has an arrival time and is not on duty yet, 0 otherwise. */
  function Owed(a: StaffAgent): nat {
    if a.arrivalTime.Some? && a.state != OnDuty then 1 else 0
  }

  /** Every agent of `staff` who is still to arrive has exactly one staff-arrival event in
      `q`, and every other agent has none. */
  ghost predicate StaffPending(q: seq<Event>, staff: seq<StaffAgent>) {
    forall k :: 0 <= k < |staff| ==> SumBy(q, StaffShare(k)) == Owed(staff[k])
  }

  /** 1 when agent `k` is among the agents from `lo` to `hi` and has an arrival time. */
  function Scheduled(agents: seq<StaffAgent>, lo: nat, hi: nat, k: nat): nat
    requires hi <= |agents|
  {
    if lo <= k < hi && agents[k].arrivalTime.Some? then 1 else 0
  }

  /** The staff events give agent `k` one arrival event if it is among those scheduled and
      has an arrival time, and none otherwise. */
  lemma {:induction false} StaffQueueShare(q0: seq<Event>, agents: seq<StaffAgent>, lo: nat, hi: nat, k: nat)
    requires hi <= |agents|
    ensures SumBy(StaffQueue(q0, agents, lo, hi), StaffShare(k)) == SumBy(q0, StaffShare(k)) + Scheduled(agents, lo, hi, k)
    decreases hi
  {
    if hi > lo {
      StaffQueueShare(q0, agents, lo, hi - 1, k);
      var q := StaffQueue(q0, agents, lo, hi - 1);
      if agents[hi - 1].arrivalTime.Some? {
        var e := Event(agents[hi - 1].arrivalTime.value, StaffArrival(hi - 1));
        SumByInsert(q, e, StaffShare(k));
        assert StaffShare(k)(e) == if k == hi - 1 then 1 else 0;
      }
    }
  }

  /** After setup, every agent with an arrival time owes exactly one staff arrival, and the
      list holds exactly one event for it. */
  lemma RosterPending(staff: seq<StaffAgent>, s: Scenario, s0: nat, m: RealMath)
    requires RosterFrom(staff, 0, s, s0, m)
    ensures StaffPending(StaffQueue([], staff, 0, |staff|), staff)
  {
    forall k | 0 <= k < |staff|
      ensures SumBy(StaffQueue([], staff, 0, |staff|), StaffShare(k)) == Owed(staff[k])
    {
      StaffQueueShare([], staff, 0, |staff|, k);
      var sd := SlotSeed(staff, 0, k, s, s0);
      assert staff[k].arrivalTime.Some? ==> staff[k].state == Home;
    }
  }

  /** Each agent with an arrival time adds one entry to the list. */
  lemma {:induction false} StaffQueueLength(q0: seq<Event>, agents: seq<StaffAgent>, lo: nat, hi: nat)
    requires hi <= |agents|
    ensures |StaffQueue(q0, agents, lo, hi)| == |q0| + Shown(agents, lo, hi)
    decreases hi
  {
    if hi > lo {
      StaffQueueLength(q0, agents, lo, hi - 1);
    }
  }

  /** Arrivals of agents whose travel times are `t` or later are no earlier than `t`. */
  lemma {:induction false} StaffQueueNotBefore(q0: seq<Event>, agents: seq<StaffAgent>, lo: nat, hi: nat, t: real)
    requires hi <= |agents| && NotBefore(q0, t)
    requires forall k :: lo <= k < hi && agents[k].arrivalTime.Some? ==> agents[k].arrivalTime.value >= t
    ensures NotBefore(StaffQueue(q0, agents, lo, hi), t)
    decreases hi
  {
    if hi > lo {
      StaffQueueNotBefore(q0, agents, lo, hi - 1, t);
      if agents[hi - 1].arrivalTime.Some? {
        NotBeforeInsert(StaffQueue(q0, agents, lo, hi - 1),
                        Event(agents[hi - 1].arrivalTime.value, StaffArrival(hi - 1)), t);
      }
    }
  }

  /** Every travel time of a roster is positive. */
  lemma RosterTimesPositive(staff: seq<StaffAgent>, s: Scenario, s0: nat, m: RealMath, k: nat)
    requires RosterFrom(staff, 0, s, s0, m) && k < |staff| && staff[k].arrivalTime.Some?
    ensures staff[k].arrivalTime.value > 0.0
  {
    var plan := Plan(StaffRoles, PerRole(s));
    assert AgentOk(staff[k], plan[k].0, plan[k].1, s, SlotSeed(staff, 0, k, s, s0), m);
    var params := ArrivalParams(plan[k].0);
  }

  /** The events of a fresh roster: none in the day scenario, where nobody travels in; one
      staff arrival per agent who shows up, at a positive time, in the night scenario. */
  lemma RosterEvents(staff: seq<StaffAgent>, s: Scenario, s0: nat, m: RealMath)
    requires RosterFrom(staff, 0, s, s0, m)
    ensures |StaffQueue([], staff, 0, |staff|)| == Shown(staff, 0, |staff|)
    ensures KindsOf(StaffQueue([], staff, 0, |staff|)) == ArrivalKinds(staff, 0, |staff|)
    ensures NotBefore(StaffQueue([], staff, 0, |staff|), 0.0)
    ensures s == Daytime ==> StaffQueue([], staff, 0, |staff|) == []
    ensures NoSnapshots(StaffQueue([], staff, 0, |staff|))
    ensures SumBy(StaffQueue([], staff, 0, |staff|), ArrivalShare) == 0
  {
    StaffQueueMembers([], staff, 0, |staff|);
    StaffQueueLength([], staff, 0, |staff|);
    StaffQueueFacts([], staff, 0, |staff|, 0);
    forall k | 0 <= k < |staff| && staff[k].arrivalTime.Some? ensures staff[k].arrivalTime.value >= 0.0 {
      RosterTimesPositive(staff, s, s0, m, k);
    }
    StaffQueueNotBefore([], staff, 0, |staff|, 0.0);
    if s == Daytime {
      ShownNone(staff, s, s0, m, |staff|);
    }
  }

  /** In the day scenario no agent of the roster has an arrival time. */
  lemma {:induction false} ShownNone(staff: seq<StaffAgent>, s: Scenario, s0: nat, m: RealMath, hi: nat)
    requires RosterFrom(staff, 0, s, s0, m) && s == Daytime && hi <= |staff|
    ensures Shown(staff, 0, hi) == 0
    decreases hi
  {
    if hi > 0 {
      ShownNone(staff, s, s0, m, hi - 1);
      var plan := Plan(StaffRoles, PerRole(s));
      assert AgentOk(staff[hi - 1], plan[hi - 1].0, plan[hi - 1].1, s,
                     SlotSeed(staff, 0, hi - 1, s, s0), m);
    }
  }

  /** What `initializeStaff` has done once the roster has grown from `st0` to `staff`: the
      list `q0` has become `q` by scheduling the new agents' arrivals, and the seed has
      advanced from `s0` to `seed` by the new agents' draws. */
  ghost predicate BuiltFrom(st0: seq<StaffAgent>, staff: seq<StaffAgent>, q0: seq<Event>, q: seq<Event>,
                            s0: nat, seed: nat, s: Scenario) {
    && |st0| <= |staff| && staff[..|st0|] == st0
    && q == StaffQueue(q0, staff, |st0|, |staff|)
    && seed == Advance(s0, RosterDrawCount(staff, |st0|, |staff|, s))
  }

  /** An agent appended at position `hi` adds its own arrival, if any, to the event list. */
  lemma StaffQueueSnoc(q0: seq<Event>, staff: seq<StaffAgent>, a: StaffAgent, lo: nat)
    ensures StaffQueue(q0, staff + [a], lo, |staff| + 1) ==
            if a.arrivalTime.Some? && lo <= |staff|
            then Insert(StaffQueue(q0, staff, lo, |staff|), Event(a.arrivalTime.value, StaffArrival(|staff|)))
            else StaffQueue(q0, staff, lo, |staff|)
  {
    StaffQueueAppend(q0, staff, a, lo, |staff|);
    assert (staff + [a])[|staff|] == a;
  }

  /** An agent appended at position `hi` adds its own draws to the count. */
  lemma DrawCountSnoc(staff: seq<StaffAgent>, a: StaffAgent, lo: nat, s: Scenario)
    requires lo <= |staff|
    ensures RosterDrawCount(staff + [a], lo, |staff| + 1, s) ==
            RosterDrawCount(staff, lo, |staff|, s) + RosterDraws(s) + Arrives(a)
  {
    DrawCountAppend(staff, a, lo, |staff|, s);
    assert (staff + [a])[|staff|] == a;
  }

  /** One more agent keeps `BuiltFrom`. */
  lemma BuiltStep(st0: seq<StaffAgent>, staff: seq<StaffAgent>, a: StaffAgent, q0: seq<Event>,
                  q: seq<Event>, q': seq<Event>, s0: nat, seed: nat, seed': nat, s: Scenario)
    requires BuiltFrom(st0, staff, q0, q, s0, seed, s)
    requires q' == if a.arrivalTime.Some? then Insert(q, Event(a.arrivalTime.value, StaffArrival(|staff|))) else q
    requires seed' == Advance(seed, RosterDraws(s) + Arrives(a))
    ensures BuiltFrom(st0, staff + [a], q0, q', s0, seed', s)
  {
    assert (staff + [a])[..|st0|] == staff[..|st0|];
    StaffQueueSnoc(q0, staff, a, |st0|);
    SeedSnoc(s0, staff, a, |st0|, s);
  }

  /** The generator state after the draws of one more agent. */
  lemma SeedSnoc(s0: nat, staff: seq<StaffAgent>, a: StaffAgent, lo: nat, s: Scenario)
    requires lo <= |staff|
    ensures Advance(Advance(s0, RosterDrawCount(staff, lo, |staff|, s)), RosterDraws(s) + Arrives(a)) ==
            Advance(s0, RosterDrawCount(staff + [a], lo, |staff| + 1, s))
  {
    DrawCountSnoc(staff, a, lo, s);
    AdvanceAdd(s0, RosterDrawCount(staff, lo, |staff|, s), RosterDraws(s) + Arrives(a));
  }

  /** An agent already in the roster still matches its plan entry once another agent and
      another entry are appended. */
  lemma SlotSnoc(staff: seq<StaffAgent>, lo: nat, a: StaffAgent, plan: seq<(Role, nat)>, c: (Role, nat),
                 p: nat, s: Scenario, s0: nat, m: RealMath)
    requires Matches(staff, lo, plan, s, s0, m) && lo <= p < |staff|
    ensures AgentOk((staff + [a])[p], (plan + [c])[p - lo].0, (plan + [c])[p - lo].1, s,
                    SlotSeed(staff + [a], lo, p, s, s0), m)
  {
    DrawCountAppend(staff, a, lo, p, s);
    assert SlotSeed(staff + [a], lo, p, s, s0) == SlotSeed(staff, lo, p, s, s0);
    assert AgentOk(staff[p], plan[p - lo].0, plan[p - lo].1, s, SlotSeed(staff, lo, p, s, s0), m);
    assert (staff + [a])[p] == staff[p] && (plan + [c])[p - lo] == plan[p - lo];
  }

  /** One more agent, matching the next entry of the roster plan. */
  lemma MatchesSnoc(staff: seq<StaffAgent>, lo: nat, a: StaffAgent, done: seq<(Role, nat)>,
                    b: seq<(Role, nat)>, i: nat, s: Scenario, s0: nat, m: RealMath)
    requires i < |b| && Matches(staff, lo, done + b[..i], s, s0, m)
    requires AgentOk(a, b[i].0, b[i].1, s, Advance(s0, RosterDrawCount(staff, lo, |staff|, s)), m)
    ensures Matches(staff + [a], lo, done + b[..i + 1], s, s0, m)
  {
    var plan, plan', staff' := done + b[..i], done + b[..i + 1], staff + [a];
    assert plan' == plan + [b[i]];
    forall p | lo <= p <= |staff|
      ensures AgentOk(staff'[p], plan'[p - lo].0, plan'[p - lo].1, s,
                      SlotSeed(staff', lo, p, s, s0), m)
    {
      if p < |staff| {
        SlotSnoc(staff, lo, a, plan, b[i], p, s, s0, m);
      } else {
        DrawCountAppend(staff, a, lo, p, s);
        assert staff'[p] == a && plan'[p - lo] == b[i];
      }
    }
  }

  /* ---------------------------------------------------------------- the event list */

  /** What an entry of the event list must satisfy: a patient step names one of the first
      `np` patients, a staff arrival names an agent with an arrival time, and a snapshot
      event carries its own time. */
  ghost predicate EventOk(e: Event, np: nat, staff: seq<StaffAgent>) {
    && (e.kind.PatientStep? ==> e.kind.patient < np)
    && (e.kind.StaffArrival? ==> e.kind.agent < |staff| && staff[e.kind.agent].arrivalTime.Some?)
    && (e.kind.SnapshotAt? ==> e.kind.t == e.time)
  }

  ghost predicate QueueOk(q: seq<Event>, np: nat, staff: seq<StaffAgent>) {
    Sorted(q) && forall x :: x in q ==> EventOk(x, np, staff)
  }

  /** Scheduling a well-formed event keeps the list well formed. */
  lemma QueueOkInsert(q: seq<Event>, e: Event, np: nat, staff: seq<StaffAgent>)
    requires QueueOk(q, np, staff) && EventOk(e, np, staff)
    ensures QueueOk(Insert(q, e), np, staff)
  {
    InsertFacts(q, e);
    assert forall x :: x in Insert(q, e) ==> x in multiset(Insert(q, e));
  }

  /** The list built for a fresh roster is well formed, holds nothing before time 0 and holds
      an arrival for every agent with an arrival time. */
  lemma FreshQueue(staff: seq<StaffAgent>, q: seq<Event>, s: Scenario, s0: nat, m: RealMath)
    requires RosterFrom(staff, 0, s, s0, m) && q == StaffQueue([], staff, 0, |staff|)
    ensures QueueOk(q, 0, staff) && NotBefore(q, 0.0)
    ensures AwaitingIn([], staff, KindsOf(q), {})
    ensures NoSnapshots(q) && SumBy(q, ArrivalShare) == 0
  {
    StaffQueueFacts([], staff, 0, |staff|, 0);
    RosterEvents(staff, s, s0, m);
  }

  /** Removing the front entry keeps the list well formed and removes only its kind. */
  lemma QueueOkFront(q: seq<Event>, np: nat, staff: seq<StaffAgent>)
    requires q != [] && QueueOk(q, np, staff)
    ensures QueueOk(q[1..], np, staff) && EventOk(q[0], np, staff)
    ensures KindsOf(q) == {q[0].kind} + KindsOf(q[1..])
    ensures forall x :: x in q[1..] ==> x.time >= q[0].time
    ensures multiset(q) == multiset{q[0]} + multiset(q[1..])
  {
    assert q == [q[0]] + q[1..];
    forall x | x in q[1..] ensures x.time >= q[0].time {
      var j :| 0 <= j < |q[1..]| && q[1..][j] == x;
      assert q[j + 1] == x && TimeLe(q[0], q[j + 1]);
    }
  }

  /** The patient steps of a well-formed list name known patients. */
  lemma QueueOkSteps(q: seq<Event>, np: nat, staff: seq<StaffAgent>)
    requires QueueOk(q, np, staff)
    ensures StepsBelow(q, np)
  {
    assert forall i :: 0 <= i < |q| ==> q[i] in q;
  }

  /** Adding a patient, or moving one on, does not raise the weight of a list that names only
      the patients already there. */
  lemma WeightAppend(q: seq<Event>, ps: seq<Patient>, p: Patient)
    requires StepsBelow(q, |ps|)
    ensures Weight(q, ps + [p]) <= Weight(q, ps)
  {
    WeightMono(q, ps, ps + [p]);
  }

  lemma WeightMove(q: seq<Event>, ps: seq<Patient>, i: nat, p: Patient)
    requires StepsBelow(q, |ps|) && i < |ps| && PatientWeight(p) <= PatientWeight(ps[i])
    ensures Weight(q, ps[i := p]) <= Weight(q, ps)
  {
    WeightMono(q, ps, ps[i := p]);
  }

  /** A list sorted by time stays sorted when an entry no earlier than its last is appended. */
  lemma SortedSnoc(q: seq<Event>, e: Event)
    requires Sorted(q) && (q != [] ==> q[|q| - 1].time <= e.time)
    ensures Sorted(q + [e])
  {
    SortedEnds(q);
    var r := q + [e];
    forall i, j | 0 <= i < j < |r| ensures TimeLe(r[i], r[j]) {
      if j < |q| {
        assert TimeLe(q[i], q[j]);
      }
    }
  }

  /** One routing step of patient `i` with draw `u`, scheduling the next step at time `t`
      when the patient moves on: the pending kinds only grow, a patient not discharged has a
      step pending, no arrival or snapshot is added, and the weight grows by less than the
      patient's step weight. */
  lemma StepFacts(q: seq<Event>, q': seq<Event>, ps: seq<Patient>, i: nat, u: real, t: real)
    requires StepsBelow(q, |ps|) && i < |ps| && PatientOk(ps[i], i)
    requires q' == if Successor(ps[i].currentNode, u).Some? then Insert(q, Event(t, PatientStep(i))) else q
    ensures var p' := Moved(ps[i], Successor(ps[i].currentNode, u));
            && KindsOf(q) <= KindsOf(q')
            && (!p'.discharged ==> PatientStep(i) in KindsOf(q'))
            && SumBy(q', ArrivalShare) == SumBy(q, ArrivalShare)
            && SnapshotTimes(q') == SnapshotTimes(q)
            && Weight(q', ps[i := p']) < Weight(q, ps) + PatientWeight(ps[i]) + 1
  {
    var next := Successor(ps[i].currentNode, u);
    var p' := Moved(ps[i], next);
    MovedOk(ps[i], i, u);
    WeightMove(q, ps, i, p');
    if next.Some? {
      var e := Event(t, PatientStep(i));
      KindsInsert(q, e);
      SumByInsert(q, e, ArrivalShare);
      SnapshotTimesInsertOther(q, e);
      WeightInsert(q, e, ps[i := p']);
    }
  }

  /** The next step of a patient is scheduled 10 to 60 minutes after the clock, so a list
      with nothing before the clock keeps nothing before it. */
  lemma StepNotBefore(q: seq<Event>, q': seq<Event>, now: real, u: real, i: nat, next: Option<Node>)
    requires 0.0 <= u <= MaxUnit
    requires next.Some? ==> q' == Insert(q, Event(now + UniformValue(u, 10.0, 60.0), PatientStep(i)))
    requires next.None? ==> q' == q
    ensures NotBefore(q, now) ==> NotBefore(q', now)
  {
    if NotBefore(q, now) && next.Some? {
      NotBeforeInsert(q, Event(now + UniformValue(u, 10.0, 60.0), PatientStep(i)), now);
    }
  }

  /** The list of snapshots grown by one. */
  lemma TimesOfSnoc(ss: seq<SimulationSnapshot>, lo: nat, s: SimulationSnapshot)
    requires lo <= |ss|
    ensures (ss + [s])[lo..] == ss[lo..] + [s]
    ensures TimesOf(ss[lo..] + [s]) == TimesOf(ss[lo..]) + [s.time]
  {
  }

  /** What running event `e` does to the snapshots `ss`, leaving `ss'`: a snapshot event
      appends one idle snapshot at its time, counting the `np` patients there are and the
      agents of `staff` on duty; any other event leaves the snapshots alone. */
  ghost predicate Snapped(e: Event, ss: seq<SimulationSnapshot>, ss': seq<SimulationSnapshot>,
                          deaths: seq<DeathRecord>, np: nat, staff: seq<StaffAgent>) {
    if e.kind.SnapshotAt? then
      && |ss'| == |ss| + 1 && ss'[..|ss|] == ss
      && IdleSnapshot(ss'[|ss|], e.kind.t, deaths) && Counted(ss'[|ss|], np, staff)
    else ss' == ss
  }

  /** The drain loop so far, with `np` patients: the snapshots `s0` it started with are kept,
      the times `times` pending at its start are those of the idle snapshots taken since,
      followed by those still pending in `q`, and the patient totals of the snapshots taken
      never decrease and are at most `np`. */
  ghost predicate Taken(s0: seq<SimulationSnapshot>, ss: seq<SimulationSnapshot>, times: seq<real>,
                        q: seq<Event>, deaths: seq<DeathRecord>, np: nat) {
    && |s0| <= |ss| && ss[..|s0|] == s0
    && times == TimesOf(ss[|s0|..]) + SnapshotTimes(q)
    && (forall k :: |s0| <= k < |ss| ==> IdleSnapshot(ss[k], ss[k].time, deaths) && ss[k].totalPatients <= np)
    && (forall j, k :: |s0| <= j < k < |ss| ==> ss[j].totalPatients <= ss[k].totalPatients)
  }

  /** Running the front event of `q` keeps `Taken`: a snapshot event moves its time from the
      pending list to the snapshots taken. */
  lemma TakenStep(s0: seq<SimulationSnapshot>, ss: seq<SimulationSnapshot>, ss': seq<SimulationSnapshot>,
                  times: seq<real>, q: seq<Event>, q': seq<Event>, deaths: seq<DeathRecord>,
                  np: nat, np': nat, staff: seq<StaffAgent>)
    requires Taken(s0, ss, times, q, deaths, np) && q != [] && np <= np'
    requires SnapshotTimes(q') == SnapshotTimes(q[1..])
    requires Snapped(q[0], ss, ss', deaths, np', staff)
    ensures Taken(s0, ss', times, q', deaths, np')
  {
    SnapshotTimesFront(q);
    if q[0].kind.SnapshotAt? {
      assert ss' == ss + [ss'[|ss|]];
      TimesOfSnoc(ss, |s0|, ss'[|ss|]);
    }
  }

  /** The snapshots `ss` are `s0` followed by one idle snapshot per time of `times`, in that
      order, whose patient totals never decrease and are at most `np`. */
  ghost predicate Drained(s0: seq<SimulationSnapshot>, ss: seq<SimulationSnapshot>, times: seq<real>,
                          deaths: seq<DeathRecord>, np: nat) {
    && |ss| == |s0| + |times| && ss[..|s0|] == s0
    && (forall k :: |s0| <= k < |ss| ==>
          IdleSnapshot(ss[k], times[k - |s0|], deaths) && ss[k].totalPatients <= np)
    && (forall j, k :: |s0| <= j < k < |ss| ==> ss[j].totalPatients <= ss[k].totalPatients)
  }

  /** Once no event is pending, the snapshots taken are exactly one per time of `times`. */
  lemma TakenEnd(s0: seq<SimulationSnapshot>, ss: seq<SimulationSnapshot>, times: seq<real>,
                 deaths: seq<DeathRecord>, np: nat)
    requires Taken(s0, ss, times, [], deaths, np)
    ensures Drained(s0, ss, times, deaths, np)
  {
    assert SnapshotTimes([]) == [];
    assert times == TimesOf(ss[|s0|..]);
    forall k | |s0| <= k < |ss|
      ensures IdleSnapshot(ss[k], times[k - |s0|], deaths)
    {
      assert times[k - |s0|] == ss[|s0|..][k - |s0|].time;
    }
  }

  /** The snapshots of a run with interval `iv`: one idle snapshot per multiple of `iv` up to
      the horizon, in order, with `deaths` logged, whose patient totals never decrease and
      are at most the `np` patients of the run. */
  ghost predicate SnapshotsTaken(ss: seq<SimulationSnapshot>, iv: real, deaths: seq<DeathRecord>, np: nat) {
    && iv > 0.0 && |ss| == SnapshotCount(iv)
    && (forall k :: 0 <= k < |ss| ==> IdleSnapshot(ss[k], SnapshotTime(k, iv), deaths) && ss[k].totalPatients <= np)
    && (forall j, k :: 0 <= j < k < |ss| ==> ss[j].totalPatients <= ss[k].totalPatients)
  }

  /** Draining a list whose snapshot times are the schedule of `iv` takes the snapshots of a
      run. */
  lemma DrainedSchedule(ss: seq<SimulationSnapshot>, iv: real, deaths: seq<DeathRecord>, np: nat)
    requires iv > 0.0 && Drained([], ss, SnapshotSchedule(iv), deaths, np)
    ensures SnapshotsTaken(ss, iv, deaths, np)
  {
    forall k | 0 <= k < |ss|
      ensures IdleSnapshot(ss[k], SnapshotTime(k, iv), deaths)
    {
      assert SnapshotSchedule(iv)[k - 0] == SnapshotTime(k, iv);
    }
  }

  /** The roster `staff` is `st0` with some agents who have an arrival time put on duty. */
  ghost predicate Promoted(st0: seq<StaffAgent>, staff: seq<StaffAgent>) {
    && |staff| == |st0|
    && forall k :: 0 <= k < |st0| ==>
         staff[k] == st0[k] || (st0[k].arrivalTime.Some? && staff[k] == st0[k].(state := OnDuty))
  }

  /** Running an event never removes a patient. */
  lemma RanGrows(e: Event, t: real, w: World, w': World)
    requires Ran(e, t, w, w')
    ensures |w.patients| <= |w'.patients|
  {
  }

  /** Running an event keeps `Promoted`. */
  lemma PromotedStep(st0: seq<StaffAgent>, e: Event, t: real, w: World, w': World)
    requires Promoted(st0, w.staff) && Ran(e, t, w, w')
    ensures Promoted(st0, w'.staff)
  {
    if e.kind.StaffArrival? {
      var k := e.kind.agent;
      forall j | 0 <= j < |st0|
        ensures w'.staff[j] == st0[j] || (st0[j].arrivalTime.Some? && w'.staff[j] == st0[j].(state := OnDuty))
      {
        if j == k && w.staff[j] == st0[j] {
          assert w'.staff[j] == st0[j].(state := OnDuty);
        }
      }
    }
  }

  /** The roster `staff` is `st0` with exactly the agents who have an arrival time put on
      duty. */
  ghost predicate Rostered(st0: seq<StaffAgent>, staff: seq<StaffAgent>) {
    && |staff| == |st0|
    && forall k :: 0 <= k < |staff| ==>
         staff[k] == if st0[k].arrivalTime.Some? then st0[k].(state := OnDuty) else st0[k]
  }

  /** Once every agent with an arrival time is on duty, the roster is `st0` with exactly
      those agents put on duty. */
  lemma PromotedEnd(st0: seq<StaffAgent>, staff: seq<StaffAgent>)
    requires Promoted(st0, staff)
    requires forall k :: 0 <= k < |staff| && staff[k].arrivalTime.Some? ==> staff[k].state == OnDuty
    ensures Rostered(st0, staff)
  {
    forall k | 0 <= k < |staff|
      ensures staff[k] == if st0[k].arrivalTime.Some? then st0[k].(state := OnDuty) else st0[k]
    {
      if st0[k].arrivalTime.Some? && staff[k] == st0[k] {
        assert staff[k].state == OnDuty;
      }
    }
  }

  /** The number of agents of role `r` among the first `n` who were not on duty in `st0`
      and are on duty in `staff`. */
  function Called(st0: seq<StaffAgent>, staff: seq<StaffAgent>, r: Role, n: nat): nat
    requires n <= |st0| && n <= |staff|
  {
    if n == 0 then 0
    else
      Called(st0, staff, r, n - 1) +
      (if st0[n - 1].role == r && st0[n - 1].state != OnDuty && staff[n - 1].state == OnDuty then 1 else 0)
  }

  /** The number of agents of role `r` among the first `n` of `st0` who are still to arrive. */
  function Due(st0: seq<StaffAgent>, r: Role, n: nat): nat
    requires n <= |st0|
  {
    if n == 0 then 0 else Due(st0, r, n - 1) + (if st0[n - 1].role == r then Owed(st0[n - 1]) else 0)
  }

  /** The capacities `r0` once the agents put on duty between the rosters `st0` and `staff`
      have arrived: one more ED place per ED doctor, one more triage place per ED nurse. */
  function Staffed(r0: map<Resource, int>, st0: seq<StaffAgent>, staff: seq<StaffAgent>): map<Resource, int>
    requires EdRes in r0 && TriageRes in r0 && |staff| == |st0|
  {
    r0[EdRes := r0[EdRes] + Called(st0, staff, EdDoctor, |st0|)]
      [TriageRes := r0[TriageRes] + Called(st0, staff, EdNurse, |st0|)]
  }

  /** The capacities `r0` once every agent of `st0` still to arrive has arrived. */
  function Arrived(r0: map<Resource, int>, st0: seq<StaffAgent>): map<Resource, int>
    requires EdRes in r0 && TriageRes in r0
  {
    r0[EdRes := r0[EdRes] + Due(st0, EdDoctor, |st0|)][TriageRes := r0[TriageRes] + Due(st0, EdNurse, |st0|)]
  }

  /** Nobody has been put on duty yet. */
  lemma {:induction false} CalledNone(st0: seq<StaffAgent>, r: Role, n: nat)
    requires n <= |st0|
    ensures Called(st0, st0, r, n) == 0
    decreases n
  {
    if n > 0 {
      CalledNone(st0, r, n - 1);
    }
  }

  /** Putting agent `k`, who was not on duty, on duty counts it once for its role. */
  lemma {:induction false} CalledStep(st0: seq<StaffAgent>, staff: seq<StaffAgent>, r: Role, n: nat, k: nat)
    requires |staff| == |st0| && n <= |st0| && k < |st0| && staff[k].state != OnDuty
    ensures Called(st0, staff[k := staff[k].(state := OnDuty)], r, n) ==
            Called(st0, staff, r, n) + (if k < n && st0[k].role == r && st0[k].state != OnDuty then 1 else 0)
    decreases n
  {
    if n > 0 {
      CalledStep(st0, staff, r, n - 1, k);
    }
  }

  /** Once exactly the agents with an arrival time have been put on duty, those called are
      those who were due. */
  lemma {:induction false} CalledDue(st0: seq<StaffAgent>, staff: seq<StaffAgent>, r: Role, n: nat)
    requires Rostered(st0, staff) && n <= |st0|
    ensures Called(st0, staff, r, n) == Due(st0, r, n)
    decreases n
  {
    if n > 0 {
      CalledDue(st0, staff, r, n - 1);
      assert staff[n - 1] == if st0[n - 1].arrivalTime.Some? then st0[n - 1].(state := OnDuty) else st0[n - 1];
    }
  }

  /** The drain so far, from the roster `st0` and the capacities `r0`: the capacities are
      those of the agents put on duty since, and every agent still to arrive has exactly one
      pending event in `q`. */
  ghost predicate StaffedFrom(r0: map<Resource, int>, st0: seq<StaffAgent>, staff: seq<StaffAgent>,
                              resources: map<Resource, int>, q: seq<Event>) {
    && |staff| == |st0| && EdRes in r0 && TriageRes in r0
    && resources == Staffed(r0, st0, staff)
    && StaffPending(q, staff)
  }

  /** At the start of the drain nobody has been called. */
  lemma StaffedStart(r0: map<Resource, int>, st0: seq<StaffAgent>, q: seq<Event>)
    requires EdRes in r0 && TriageRes in r0 && StaffPending(q, st0)
    ensures StaffedFrom(r0, st0, st0, r0, q)
  {
    CalledNone(st0, EdDoctor, |st0|);
    CalledNone(st0, EdNurse, |st0|);
  }

  /** Taking the front event `q[0]` off `q` takes its share off every agent's count. */
  lemma PendingFront(q: seq<Event>, staff: seq<StaffAgent>)
    requires q != [] && StaffPending(q, staff)
    ensures forall k :: 0 <= k < |staff| ==> SumBy(q[1..], StaffShare(k)) + StaffShare(k)(q[0]) == Owed(staff[k])
  {
    forall k | 0 <= k < |staff|
      ensures SumBy(q[1..], StaffShare(k)) + StaffShare(k)(q[0]) == Owed(staff[k])
    {
      SumByInsert(q, q[0], StaffShare(k));
    }
  }

  /** Putting agent `k`, who was not on duty, on duty adds its role's capacity. */
  lemma StaffedCapacity(r0: map<Resource, int>, st0: seq<StaffAgent>, staff: seq<StaffAgent>, k: nat)
    requires EdRes in r0 && TriageRes in r0 && |staff| == |st0| && k < |st0|
    requires staff[k] == st0[k] && staff[k].state != OnDuty
    ensures Staffed(r0, st0, staff[k := staff[k].(state := OnDuty)]) == StaffCapacity(Staffed(r0, st0, staff), staff[k].role)
  {
    CalledStep(st0, staff, EdDoctor, |st0|, k);
    CalledStep(st0, staff, EdNurse, |st0|, k);
  }

  /** The staff arrival of agent `k` at the front of `q` is its one pending event: the agent
      has an arrival time and is not on duty, and once it is on duty it owes nothing more. */
  lemma PendingArrival(q: seq<Event>, staff: seq<StaffAgent>, k: nat)
    requires q != [] && q[0].kind == StaffArrival(k) && k < |staff| && StaffPending(q, staff)
    ensures staff[k].arrivalTime.Some? && staff[k].state != OnDuty
    ensures StaffPending(q[1..], staff[k := staff[k].(state := OnDuty)])
  {
    PendingFront(q, staff);
    assert StaffShare(k)(q[0]) == 1;
    var staff' := staff[k := staff[k].(state := OnDuty)];
    forall j | 0 <= j < |staff'|
      ensures SumBy(q[1..], StaffShare(j)) == Owed(staff'[j])
    {
      if j != k {
        assert StaffShare(j)(q[0]) == 0;
      }
    }
  }

  /** A staff arrival at the front of `q` is the one event of its agent, who was not on
      duty, so its capacity is counted once and it owes nothing more. */
  lemma StaffedArrival(r0: map<Resource, int>, st0: seq<StaffAgent>, q: seq<Event>, w: World, w': World, k: nat)
    requires q != [] && q[0].kind == StaffArrival(k) && k < |w.staff|
    requires Promoted(st0, w.staff) && StaffedFrom(r0, st0, w.staff, w.resources, q)
    requires w'.staff == w.staff[k := w.staff[k].(state := OnDuty)]
    requires w'.resources == StaffCapacity(w.resources, w.staff[k].role)
    requires w'.queue == q[1..]
    ensures StaffedFrom(r0, st0, w'.staff, w'.resources, w'.queue)
  {
    PendingArrival(q, w.staff, k);
    assert w.staff[k] == st0[k];
    StaffedCapacity(r0, st0, w.staff, k);
  }

  /** Any other event at the front of `q` leaves the roster and the capacities alone and
      schedules at most one event `x`, which is no staff arrival. */
  lemma StaffedOther(r0: map<Resource, int>, st0: seq<StaffAgent>, q: seq<Event>, w: World, w': World, x: Event)
    requires q != [] && !q[0].kind.StaffArrival? && !x.kind.StaffArrival?
    requires StaffedFrom(r0, st0, w.staff, w.resources, q)
    requires w'.staff == w.staff && w'.resources == w.resources
    requires w'.queue == q[1..] || w'.queue == Insert(q[1..], x)
    ensures StaffedFrom(r0, st0, w'.staff, w'.resources, w'.queue)
  {
    PendingFront(q, w.staff);
    forall j | 0 <= j < |w.staff|
      ensures SumBy(w'.queue, StaffShare(j)) == Owed(w.staff[j])
    {
      assert StaffShare(j)(q[0]) == 0;
      SumByInsert(q[1..], x, StaffShare(j));
    }
  }

  /** A patient step at the front of `q` keeps `StaffedFrom`. */
  lemma StaffedRouted(r0: map<Resource, int>, st0: seq<StaffAgent>, q: seq<Event>, t: real, w: World, w': World, i: nat)
    requires q != [] && q[0].kind == PatientStep(i) && w.queue == q[1..] && Routed(i, t, w, w')
    requires StaffedFrom(r0, st0, w.staff, w.resources, q)
    ensures StaffedFrom(r0, st0, w'.staff, w'.resources, w'.queue)
  {
    var d := RouteDraws(w.patients[i].currentNode);
    StaffedOther(r0, st0, q, w, w', Event(t + UniformValue(Draw(w.seed, d + 1), 10.0, 60.0), PatientStep(i)));
  }

  /** A patient arrival at the front of `q` keeps `StaffedFrom`. */
  lemma StaffedAdmitted(r0: map<Resource, int>, st0: seq<StaffAgent>, q: seq<Event>, t: real, w: World, w': World)
    requires q != [] && q[0].kind == PatientArrival && w.queue == q[1..] && Admitted(t, w, w')
    requires StaffedFrom(r0, st0, w.staff, w.resources, q)
    ensures StaffedFrom(r0, st0, w'.staff, w'.resources, w'.queue)
  {
    StaffedOther(r0, st0, q, w, w', Event(t + UniformValue(Draw(w.seed, 3), 10.0, 60.0), PatientStep(|w.patients|)));
  }

  /** Running the front event of `q` keeps `StaffedFrom`. */
  lemma StaffedStep(r0: map<Resource, int>, st0: seq<StaffAgent>, q: seq<Event>, t: real, w: World, w': World)
    requires q != [] && w.queue == q[1..] && Ran(q[0], t, w, w')
    requires Promoted(st0, w.staff) && StaffedFrom(r0, st0, w.staff, w.resources, q)
    ensures StaffedFrom(r0, st0, w'.staff, w'.resources, w'.queue)
  {
    match q[0].kind
    case StaffArrival(k) => StaffedArrival(r0, st0, q, w, w', k);
    case PatientArrival => StaffedAdmitted(r0, st0, q, t, w, w');
    case PatientStep(i) => StaffedRouted(r0, st0, q, t, w, w', i);
    case SnapshotAt(_) => StaffedOther(r0, st0, q, w, w', q[0]);
  }

  /** Once every agent with an arrival time is on duty, the capacities are those of all the
      agents who were due. */
  lemma StaffedEnd(r0: map<Resource, int>, st0: seq<StaffAgent>, staff: seq<StaffAgent>,
                   resources: map<Resource, int>, q: seq<Event>)
    requires StaffedFrom(r0, st0, staff, resources, q) && Rostered(st0, staff)
    ensures resources == Arrived(r0, st0)
  {
    CalledDue(st0, staff, EdDoctor, |st0|);
    CalledDue(st0, staff, EdNurse, |st0|);
  }

  /** Among agents without arrival times nobody is due. */
  lemma {:induction false} DueNone(st0: seq<StaffAgent>, r: Role, n: nat)
    requires n <= |st0| && Shown(st0, 0, n) == 0
    ensures Due(st0, r, n) == 0
    decreases n
  {
    if n > 0 {
      DueNone(st0, r, n - 1);
    }
  }

  /** By day no agent is due, so the capacities end as they started. */
  lemma ArrivedDaytime(r0: map<Resource, int>, staff: seq<StaffAgent>, s0: nat, m: RealMath)
    requires RosterFrom(staff, 0, Daytime, s0, m) && EdRes in r0 && TriageRes in r0
    ensures Arrived(r0, staff) == r0
  {
    ShownNone(staff, Daytime, s0, m, |staff|);
    DueNone(staff, EdDoctor, |staff|);
    DueNone(staff, EdNurse, |staff|);
  }

  /** Scheduling events that are not staff arrivals keeps every pending staff arrival once. */
  lemma PendingInsertAll(q0: seq<Event>, es: seq<Event>, staff: seq<StaffAgent>)
    requires StaffPending(q0, staff)
    requires forall x :: x in es ==> !x.kind.StaffArrival?
    ensures StaffPending(InsertAll(q0, es), staff)
  {
    forall k | 0 <= k < |staff|
      ensures SumBy(InsertAll(q0, es), StaffShare(k)) == Owed(staff[k])
    {
      InsertAllSum(q0, es, StaffShare(k));
      NoStaffShare(es, k);
    }
  }

  /** Scheduling the arrivals of the counts `counts` keeps every pending staff arrival once. */
  lemma PendingArrivals(q0: seq<Event>, counts: seq<nat>, staff: seq<StaffAgent>)
    requires StaffPending(q0, staff)
    ensures StaffPending(InsertAll(q0, ArrivalEvents(counts)), staff)
  {
    ArrivalEventsMembers(counts);
    PendingInsertAll(q0, ArrivalEvents(counts), staff);
  }

  /** Scheduling the first `k` snapshot events keeps every pending staff arrival once. */
  lemma PendingSnapshots(q0: seq<Event>, iv: real, k: nat, staff: seq<StaffAgent>)
    requires StaffPending(q0, staff)
    ensures StaffPending(InsertAll(q0, SnapshotEvents(iv, k)), staff)
  {
    var es := SnapshotEvents(iv, k);
    forall x | x in es
      ensures !x.kind.StaffArrival?
    {
      var j :| 0 <= j < |es| && es[j] == x;
    }
    PendingInsertAll(q0, es, staff);
  }

  /** A list without staff arrivals owes no agent an event. */
  lemma {:induction false} NoStaffShare(es: seq<Event>, k: nat)
    requires forall x :: x in es ==> !x.kind.StaffArrival?
    ensures SumBy(es, StaffShare(k)) == 0
    decreases |es|
  {
    if es != [] {
      NoStaffShare(es[..|es| - 1], k);
    }
  }

  /** Every patient not yet discharged, and every agent with an arrival time not yet on
      duty, has an event among the pending kinds `kinds`, except for the kinds in `running`. */
  ghost predicate AwaitingIn(ps: seq<Patient>, staff: seq<StaffAgent>, kinds: set<EventKind>,
                             running: set<EventKind>) {
    && (forall i :: 0 <= i < |ps| && !ps[i].discharged && PatientStep(i) !in running ==>
          PatientStep(i) in kinds)
    && (forall k :: 0 <= k < |staff| && staff[k].arrivalTime.Some? && staff[k].state != OnDuty &&
                    StaffArrival(k) !in running ==>
          StaffArrival(k) in kinds)
  }

  /** More pending events keep everyone waiting covered. */
  lemma AwaitingMore(ps: seq<Patient>, staff: seq<StaffAgent>, kinds: set<EventKind>, kinds': set<EventKind>,
                     running: set<EventKind>)
    requires AwaitingIn(ps, staff, kinds, running) && kinds <= kinds'
    ensures AwaitingIn(ps, staff, kinds', running)
  {
  }

  /** Adding arrival events at minutes of the horizon adds no snapshot and nothing before 0. */
  lemma ArrivalsAdded(q0: seq<Event>, q: seq<Event>)
    requires NoSnapshots(q0) && NotBefore(q0, 0.0)
    requires forall x :: x in q ==> x in q0 || (x.kind == PatientArrival && 0.0 <= x.time < HorizonMinutes as real)
    ensures NoSnapshots(q) && NotBefore(q, 0.0)
  {
  }

  /** A new patient starts out as the one whose step is running. */
  lemma AwaitingAppend(ps: seq<Patient>, staff: seq<StaffAgent>, kinds: set<EventKind>, p: Patient)
    requires AwaitingIn(ps, staff, kinds, {PatientArrival})
    ensures AwaitingIn(ps + [p], staff, kinds, {PatientStep(|ps|)})
  {
  }

  /** After a routing step of patient `i` that leaves them either discharged or with a step
      pending, and that only adds pending kinds, nobody is left without an event. */
  lemma AwaitingStep(ps: seq<Patient>, staff: seq<StaffAgent>, kinds: set<EventKind>,
                     kinds': set<EventKind>, i: nat, p: Patient)
    requires AwaitingIn(ps, staff, kinds, {PatientStep(i)}) && kinds <= kinds' && i < |ps|
    requires !p.discharged ==> PatientStep(i) in kinds'
    ensures AwaitingIn(ps[i := p], staff, kinds', {})
  {
  }

  /** Taking a front event of kind `r` off the list leaves that kind as the one running. */
  lemma AwaitingFront(ps: seq<Patient>, staff: seq<StaffAgent>, kinds: set<EventKind>,
                      kinds': set<EventKind>, r: EventKind)
    requires AwaitingIn(ps, staff, kinds, {}) && kinds == {r} + kinds'
    ensures AwaitingIn(ps, staff, kinds', {r})
  {
  }

  /** Taking the front event off a well-formed list with nothing before the clock `now`:
      the rest is well formed, no earlier than the front, and awaits everything but the front
      event's kind; the front event's shares leave the sums. */
  lemma FrontStep(q: seq<Event>, ps: seq<Patient>, staff: seq<StaffAgent>, now: real)
    requires q != [] && QueueOk(q, |ps|, staff) && AwaitingIn(ps, staff, KindsOf(q), {}) && NotBefore(q, now)
    ensures QueueOk(q[1..], |ps|, staff) && EventOk(q[0], |ps|, staff)
    ensures AwaitingIn(ps, staff, KindsOf(q[1..]), {q[0].kind})
    ensures NotBefore(q[1..], q[0].time) && now <= q[0].time
    ensures SumBy(q, ArrivalShare) == ArrivalShare(q[0]) + SumBy(q[1..], ArrivalShare)
    ensures Weight(q, ps) == EventWeight(q[0], ps) + Weight(q[1..], ps)
  {
    QueueOkFront(q, |ps|, staff);
    assert q[0] in q;
    AwaitingFront(ps, staff, KindsOf(q), KindsOf(q[1..]), q[0].kind);
    SumByInsert(q, q[0], ArrivalShare);
    WeightInsert(q, q[0], ps);
  }

  /** Agent `k` going on duty needs no event any more. */
  lemma AwaitingStaff(ps: seq<Patient>, staff: seq<StaffAgent>, kinds: set<EventKind>, k: nat)
    requires AwaitingIn(ps, staff, kinds, {StaffArrival(k)}) && k < |staff|
    ensures AwaitingIn(ps, staff[k := staff[k].(state := OnDuty)], kinds, {})
  {
  }

  /** A snapshot event stands for no patient and no agent. */
  lemma AwaitingSnapshot(ps: seq<Patient>, staff: seq<StaffAgent>, kinds: set<EventKind>, r: EventKind)
    requires AwaitingIn(ps, staff, kinds, {r}) && r.SnapshotAt?
    ensures AwaitingIn(ps, staff, kinds, {})
  {
  }

  /** Patient `i` of `ps` has id `i` and has been discharged along one of the two routes. */
  ghost predicate Discharged(ps: seq<Patient>) {
    forall i :: 0 <= i < |ps| ==>
      ps[i].id == i && ps[i].discharged && (ps[i].path == Direct || ps[i].path == ViaImaging)
  }

  /** With no event left, nobody is waiting: every patient has been discharged along one of
      the two routes, and every agent with an arrival time is on duty. */
  lemma AwaitingNone(ps: seq<Patient>, staff: seq<StaffAgent>)
    requires PatientsOk(ps) && AwaitingIn(ps, staff, {}, {})
    ensures Discharged(ps)
    ensures forall k :: 0 <= k < |staff| && staff[k].arrivalTime.Some? ==> staff[k].state == OnDuty
  {
    forall i | 0 <= i < |ps|
      ensures ps[i].id == i && ps[i].discharged && (ps[i].path == Direct || ps[i].path == ViaImaging)
    {
      assert PatientOk(ps[i], i);
      CompleteRoute(ps[i].path);
    }
  }

  /** A well-formed list stays well formed when more patients are known. */
  lemma QueueOkGrow(q: seq<Event>, np: nat, np': nat, staff: seq<StaffAgent>)
    requires QueueOk(q, np, staff) && np <= np'
    ensures QueueOk(q, np', staff)
  {
  }

  /** The state of the arrival loop of `run`: the list `q` holds the events of `q0` and
      patient arrivals within the horizon. */
  ghost predicate ArrivalsSoFar(q0: seq<Event>, q: seq<Event>) {
    && (forall x :: x in q ==> x in q0 || (x.kind == PatientArrival && 0.0 <= x.time < HorizonMinutes as real))
    && KindsOf(q0) <= KindsOf(q)
    && SnapshotTimes(q) == SnapshotTimes(q0)
  }

  /** Scheduling one arrival at a minute of the horizon keeps the list well formed and keeps
      `ArrivalsSoFar`. */
  lemma ArrivalsSoFarStep(q0: seq<Event>, q: seq<Event>, t: nat, np: nat, staff: seq<StaffAgent>)
    requires ArrivalsSoFar(q0, q) && QueueOk(q, np, staff) && t < HorizonMinutes
    ensures QueueOk(Insert(q, Event(t as real, PatientArrival)), np, staff)
    ensures ArrivalsSoFar(q0, Insert(q, Event(t as real, PatientArrival)))
  {
    var e := Event(t as real, PatientArrival);
    QueueOkInsert(q, e, np, staff);
    KindsInsert(q, e);
    SnapshotTimesInsertOther(q, e);
    InsertMembers(q, e);
  }

  /** The arrival draws of the first `|counts|` minutes of the horizon, as `run` makes them:
      minute `t` draws `counts[t]` arrivals at the rate of that minute, starting from seed
      `seeds[t]` and leaving seed `seeds[t + 1]`. */
  ghost predicate ArrivalDraws(c: Config, m: RealMath, seeds: seq<nat>, counts: seq<nat>)
    requires Sound(m)
  {
    && |seeds| == |counts| + 1
    && forall t :: 0 <= t < |counts| ==>
         Sampled(seeds[t], PoissonCall(MinuteRate(c, t)), m, Count(counts[t]), seeds[t + 1])
  }

  /** One more minute of draws. */
  lemma ArrivalDrawsSnoc(c: Config, m: RealMath, seeds: seq<nat>, counts: seq<nat>, n: nat, seed: nat)
    requires Sound(m) && ArrivalDraws(c, m, seeds, counts)
    requires Sampled(seeds[|counts|], PoissonCall(MinuteRate(c, |counts|)), m, Count(n), seed)
    ensures ArrivalDraws(c, m, seeds + [seed], counts + [n])
  {
    var seeds', counts' := seeds + [seed], counts + [n];
    forall t | 0 <= t < |counts'|
      ensures Sampled(seeds'[t], PoissonCall(MinuteRate(c, t)), m, Count(counts'[t]), seeds'[t + 1])
    {
      assert seeds'[t] == seeds[t] && seeds'[t + 1] == (seeds + [seed])[t + 1];
      if t < |counts| {
        assert counts'[t] == counts[t] && seeds'[t + 1] == seeds[t + 1];
      }
    }
  }

  /** `n` arrival events at minute `t`. */
  function Arrivals(t: nat, n: nat): (r: seq<Event>)
    ensures |r| == n && forall j :: 0 <= j < n ==> r[j] == Event(t as real, PatientArrival)
  {
    seq(n, _ => Event(t as real, PatientArrival))
  }

  /** The arrival events `run` schedules for the counts `counts`, minute by minute. */
  function ArrivalEvents(counts: seq<nat>): seq<Event> {
    if counts == [] then []
    else ArrivalEvents(counts[..|counts| - 1]) + Arrivals(|counts| - 1, counts[|counts| - 1])
  }

  /** The sum of the counts. */
  function Total(counts: seq<nat>): nat {
    if counts == [] then 0 else Total(counts[..|counts| - 1]) + counts[|counts| - 1]
  }

  /** One more minute of counts. */
  lemma ArrivalEventsSnoc(counts: seq<nat>, n: nat)
    ensures ArrivalEvents(counts + [n]) == ArrivalEvents(counts) + Arrivals(|counts|, n)
    ensures Total(counts + [n]) == Total(counts) + n
  {
    assert (counts + [n])[..|counts|] == counts;
  }

  /** The list `q` after scheduling the events of `es` one after the other. */
  function InsertAll(q: seq<Event>, es: seq<Event>): seq<Event> {
    if es == [] then q else Insert(InsertAll(q, es[..|es| - 1]), es[|es| - 1])
  }

  /** Scheduling one more event. */
  lemma InsertAllSnoc(q: seq<Event>, es: seq<Event>, e: Event)
    ensures InsertAll(q, es + [e]) == Insert(InsertAll(q, es), e)
  {
    assert (es + [e])[..|es|] == es;
  }

  /** No arrival added. */
  lemma NoArrivals(es: seq<Event>, t: nat)
    ensures es + Arrivals(t, 0) == es
  {
  }

  /** Scheduling one more arrival at minute `t`. */
  lemma InsertAllArrival(q: seq<Event>, es: seq<Event>, t: nat, i: nat)
    ensures InsertAll(q, es + Arrivals(t, i + 1)) ==
            Insert(InsertAll(q, es + Arrivals(t, i)), Event(t as real, PatientArrival))
  {
    assert es + Arrivals(t, i + 1) == (es + Arrivals(t, i)) + [Event(t as real, PatientArrival)];
    InsertAllSnoc(q, es + Arrivals(t, i), Event(t as real, PatientArrival));
  }

  /** Scheduling the events of `es` one after the other keeps a sorted list sorted and adds
      exactly the events of `es`. */
  lemma {:induction false} InsertAllFacts(q: seq<Event>, es: seq<Event>)
    requires Sorted(q)
    ensures Sorted(InsertAll(q, es))
    ensures multiset(InsertAll(q, es)) == multiset(q) + multiset(es)
    decreases |es|
  {
    if es != [] {
      var init, e := es[..|es| - 1], es[|es| - 1];
      InsertAllFacts(q, init);
      InsertFacts(InsertAll(q, init), e);
      assert es == init + [e];
    }
  }

  /** Every sum over the list grows by the sum over the events scheduled. */
  lemma {:induction false} InsertAllSum(q: seq<Event>, es: seq<Event>, f: Event -> nat)
    ensures SumBy(InsertAll(q, es), f) == SumBy(q, f) + SumBy(es, f)
    decreases |es|
  {
    if es != [] {
      var init, e := es[..|es| - 1], es[|es| - 1];
      InsertAllSum(q, init, f);
      SumByInsert(InsertAll(q, init), e, f);
    }
  }

  /** The `n` arrivals of minute `t`: `n` copies of the one arrival event of that minute. */
  lemma {:induction false} ArrivalsFacts(t: nat, n: nat)
    ensures SumBy(Arrivals(t, n), ArrivalShare) == n
    ensures multiset(Arrivals(t, n)) == multiset{}[Event(t as real, PatientArrival) := n]
    decreases n
  {
    if n > 0 {
      ArrivalsFacts(t, n - 1);
      assert Arrivals(t, n)[..n - 1] == Arrivals(t, n - 1);
      assert Arrivals(t, n) == Arrivals(t, n - 1) + [Event(t as real, PatientArrival)];
    } else {
      assert Arrivals(t, n) == [];
    }
  }

  /** The events `run` schedules for the counts `counts`: one arrival per arriving patient. */
  lemma {:induction false} ArrivalEventsSum(counts: seq<nat>)
    ensures SumBy(ArrivalEvents(counts), ArrivalShare) == Total(counts) == |ArrivalEvents(counts)|
    decreases |counts|
  {
    if counts != [] {
      var init, n := counts[..|counts| - 1], counts[|counts| - 1];
      ArrivalEventsSum(init);
      ArrivalsFacts(|init|, n);
      SumByConcat(ArrivalEvents(init), Arrivals(|init|, n), ArrivalShare);
    }
  }

  /** The events `run` schedules for the counts `counts` are all arrivals at whole minutes
      before minute `|counts|`. */
  lemma {:induction false} ArrivalEventsMembers(counts: seq<nat>)
    ensures forall x :: x in ArrivalEvents(counts) ==>
              x.kind == PatientArrival && 0.0 <= x.time < |counts| as real && x.time == x.time.Floor as real
    decreases |counts|
  {
    if counts != [] {
      var init, n := counts[..|counts| - 1], counts[|counts| - 1];
      ArrivalEventsMembers(init);
      assert ArrivalEvents(counts) == ArrivalEvents(init) + Arrivals(|init|, n);
    }
  }

  /** The events `run` schedules for the counts `counts` hold `counts[t]` arrivals at minute
      `t`. */
  lemma {:induction false} ArrivalEventsCounts(counts: seq<nat>)
    ensures forall t :: 0 <= t < |counts| ==> multiset(ArrivalEvents(counts))[Event(t as real, PatientArrival)] == counts[t]
    decreases |counts|
  {
    if counts != [] {
      var init, n := counts[..|counts| - 1], counts[|counts| - 1];
      var a, b := ArrivalEvents(init), Arrivals(|init|, n);
      ArrivalEventsCounts(init);
      ArrivalEventsMembers(init);
      ArrivalsFacts(|init|, n);
      assert multiset(ArrivalEvents(counts)) == multiset(a) + multiset(b);
      forall t | 0 <= t < |counts|
        ensures multiset(a)[Event(t as real, PatientArrival)] + multiset(b)[Event(t as real, PatientArrival)] == counts[t]
      {
        if t < |init| {
          assert counts[t] == init[t];
        } else {
          assert Event(t as real, PatientArrival) !in a;
        }
      }
    }
  }

  /** The state of the snapshot loop of `run` before its `k`-th round: the list `q` holds the
      events of `q0` and snapshot events for the first `k` snapshot times, all earlier than the
      `k`-th time. */
  ghost predicate SnapshotsSoFar(q0: seq<Event>, q: seq<Event>, iv: real, k: nat)
    requires iv > 0.0
  {
    && k <= SnapshotCount(iv)
    && (forall x :: x in q ==> x in q0 || x.kind.SnapshotAt?)
    && (forall x :: x in q && x.kind.SnapshotAt? ==> x.time < SnapshotTime(k, iv))
    && KindsOf(q0) <= KindsOf(q)
    && SnapshotTimes(q) == SnapshotSchedule(iv)[..k]
    && NotBefore(q, 0.0) && ArrivalsFirst(q)
    && q == InsertAll(q0, SnapshotEvents(iv, k))
  }

  /** The loop starts from a list without snapshots. */
  lemma SnapshotsSoFarStart(q0: seq<Event>, iv: real)
    requires iv > 0.0 && NoSnapshots(q0) && NotBefore(q0, 0.0)
    ensures SnapshotsSoFar(q0, q0, iv, 0)
  {
    assert forall i :: 0 <= i < |q0| ==> q0[i] in q0;
    SnapshotTimesNone(q0);
  }

  /** Inserting the next snapshot keeps the list well formed and adds nothing but that snapshot. */
  lemma SnapshotMembersStep(q0: seq<Event>, q: seq<Event>, iv: real, k: nat, np: nat, staff: seq<StaffAgent>)
    requires iv > 0.0 && QueueOk(q, np, staff) && SnapshotTime(k, iv) <= HorizonMinutes as real
    requires forall x :: x in q ==> x in q0 || x.kind.SnapshotAt?
    requires forall x :: x in q && x.kind.SnapshotAt? ==> x.time < SnapshotTime(k, iv)
    requires KindsOf(q0) <= KindsOf(q)
    ensures var t := SnapshotTime(k, iv);
            var q' := Insert(q, Event(t, SnapshotAt(t)));
            && QueueOk(q', np, staff)
            && k + 1 <= SnapshotCount(iv)
            && (forall x :: x in q' ==> x in q0 || x.kind.SnapshotAt?)
            && (forall x :: x in q' && x.kind.SnapshotAt? ==> x.time < SnapshotTime(k + 1, iv))
            && KindsOf(q0) <= KindsOf(q')
  {
    var t := SnapshotTime(k, iv);
    var e := Event(t, SnapshotAt(t));
    SnapshotTimeInHorizon(k, iv);
    SnapshotTimeStep(k, iv);
    QueueOkInsert(q, e, np, staff);
    KindsInsert(q, e);
    InsertMembers(q, e);
  }

  /** The next snapshot lands after every earlier one, so the snapshot times grow by its time. */
  lemma SnapshotTimesStep(q: seq<Event>, iv: real, k: nat)
    requires iv > 0.0 && k < SnapshotCount(iv)
    requires forall x :: x in q && x.kind.SnapshotAt? ==> x.time < SnapshotTime(k, iv)
    requires SnapshotTimes(q) == SnapshotSchedule(iv)[..k]
    ensures var t := SnapshotTime(k, iv);
            SnapshotTimes(Insert(q, Event(t, SnapshotAt(t)))) == SnapshotSchedule(iv)[..k + 1]
  {
    var t := SnapshotTime(k, iv);
    SnapshotTimesInsertLast(q, Event(t, SnapshotAt(t))) by {
      assert forall i :: 0 <= i < |q| ==> q[i] in q;
    }
    assert SnapshotSchedule(iv)[..k + 1] == SnapshotSchedule(iv)[..k] + [t];
  }

  /** One round of the snapshot loop: while the `k`-th time is within the horizon, inserting
      its event keeps the list well formed and moves on to round `k + 1`; the new snapshot goes
      after every arrival at its minute. */
  lemma SnapshotsSoFarStep(q0: seq<Event>, q: seq<Event>, iv: real, k: nat, np: nat, staff: seq<StaffAgent>)
    requires iv > 0.0 && SnapshotsSoFar(q0, q, iv, k) && QueueOk(q, np, staff)
    requires SnapshotTime(k, iv) <= HorizonMinutes as real
    ensures var t := SnapshotTime(k, iv);
            && QueueOk(Insert(q, Event(t, SnapshotAt(t))), np, staff)
            && SnapshotsSoFar(q0, Insert(q, Event(t, SnapshotAt(t))), iv, k + 1)
            && SnapshotTime(k + 1, iv) == t + iv
  {
    SnapshotMembersStep(q0, q, iv, k, np, staff);
    SnapshotTimesStep(q, iv, k);
    SnapshotOrderStep(q, iv, k);
    SnapshotTimeStep(k, iv);
    SnapshotEventsSnoc(q0, iv, k);
  }

  /** A snapshot event is never scheduled before time 0, and goes after the arrivals at its
      minute. */
  lemma SnapshotOrderStep(q: seq<Event>, iv: real, k: nat)
    requires iv > 0.0 && NotBefore(q, 0.0) && ArrivalsFirst(q)
    ensures var t := SnapshotTime(k, iv);
            NotBefore(Insert(q, Event(t, SnapshotAt(t))), 0.0) && ArrivalsFirst(Insert(q, Event(t, SnapshotAt(t))))
  {
    var t := SnapshotTime(k, iv);
    if k > 0 {
      MulPos(k as real, iv);
    }
    NotBeforeInsert(q, Event(t, SnapshotAt(t)), 0.0);
    ArrivalsFirstInsert(q, Event(t, SnapshotAt(t)));
  }

  /** Past the horizon the loop has scheduled every snapshot time. */
  lemma SnapshotsSoFarEnd(q0: seq<Event>, q: seq<Event>, iv: real, k: nat)
    requires iv > 0.0 && SnapshotsSoFar(q0, q, iv, k) && SnapshotTime(k, iv) > HorizonMinutes as real
    ensures SnapshotTimes(q) == SnapshotSchedule(iv) && k == SnapshotCount(iv)
    ensures SumBy(q, ArrivalShare) == SumBy(q0, ArrivalShare)
    ensures q == InsertAll(q0, SnapshotEvents(iv, SnapshotCount(iv)))
  {
    InsertAllSum(q0, SnapshotEvents(iv, k), ArrivalShare);
    SnapshotEventsShare(iv, k);
    SnapshotTimeInHorizon(k, iv);
    assert SnapshotSchedule(iv)[..k] == SnapshotSchedule(iv);
  }

  /** The snapshot events of the first `k` snapshot times, in order. */
  function SnapshotEvents(iv: real, k: nat): (r: seq<Event>)
    ensures |r| == k && forall j :: 0 <= j < k ==> r[j] == Event(SnapshotTime(j, iv), SnapshotAt(SnapshotTime(j, iv)))
  {
    seq(k, j requires 0 <= j < k => Event(SnapshotTime(j, iv), SnapshotAt(SnapshotTime(j, iv))))
  }

  /** Scheduling the `k`-th snapshot event. */
  lemma SnapshotEventsSnoc(q: seq<Event>, iv: real, k: nat)
    ensures var t := SnapshotTime(k, iv);
            InsertAll(q, SnapshotEvents(iv, k + 1)) == Insert(InsertAll(q, SnapshotEvents(iv, k)), Event(t, SnapshotAt(t)))
  {
    var t := SnapshotTime(k, iv);
    assert SnapshotEvents(iv, k + 1) == SnapshotEvents(iv, k) + [Event(t, SnapshotAt(t))];
    InsertAllSnoc(q, SnapshotEvents(iv, k), Event(t, SnapshotAt(t)));
  }

  /** Snapshot events create no patient. */
  lemma {:induction false} SnapshotEventsShare(iv: real, k: nat)
    ensures SumBy(SnapshotEvents(iv, k), ArrivalShare) == 0
    decreases k
  {
    if k > 0 {
      SnapshotEventsShare(iv, k - 1);
      assert SnapshotEvents(iv, k)[..k - 1] == SnapshotEvents(iv, k - 1);
    }
  }

  /* ---------------------------------------------------------------- snapshots */

  /** The node metrics of a snapshot, in the order the queues were created. */
  function Report(queues: map<Node, seq<Patient>>, resources: map<Resource, int>,
                  waits: map<Node, seq<real>>, deaths: seq<DeathRecord>): (r: seq<NodeMetrics>)
    requires forall n :: n in queues && n in waits
    ensures |r| == |AllNodes|
    ensures forall j :: 0 <= j < |r| ==> r[j].node == AllNodes[j] && r[j].queueLength == |queues[AllNodes[j]]|
  {
    seq(|AllNodes|, j requires 0 <= j < |AllNodes| =>
      NodeMetricsOf(AllNodes[j], |queues[AllNodes[j]]|, resources, waits[AllNodes[j]], deaths))
  }

  /** One more node's metrics extend a prefix of the report. */
  lemma ReportSnoc(queues: map<Node, seq<Patient>>, resources: map<Resource, int>,
                   waits: map<Node, seq<real>>, deaths: seq<DeathRecord>, j: nat, nodes: seq<NodeMetrics>)
    requires forall n :: n in queues && n in waits
    requires j < |AllNodes| && nodes == Report(queues, resources, waits, deaths)[..j]
    ensures nodes + [NodeMetricsOf(AllNodes[j], |queues[AllNodes[j]]|, resources, waits[AllNodes[j]], deaths)] ==
            Report(queues, resources, waits, deaths)[..j + 1]
  {
    var r := Report(queues, resources, waits, deaths);
    assert r[..j + 1] == r[..j] + [r[j]];
  }

  /** While nothing is queued and no wait is recorded, every node of a report reads an empty
      queue, utilization 0, p95 wait 0 and green, with the deaths logged there. */
  lemma IdleReport(queues: map<Node, seq<Patient>>, resources: map<Resource, int>,
                   waits: map<Node, seq<real>>, deaths: seq<DeathRecord>, j: nat)
    requires forall n :: n in queues && queues[n] == [] && n in waits && waits[n] == []
    requires j < |AllNodes|
    ensures Report(queues, resources, waits, deaths)[j] ==
            NodeMetrics(AllNodes[j], 0, 0.0, 0.0, DeathsAt(deaths, AllNodes[j]), Green)
  {
    IdleNode(AllNodes[j], resources, deaths);
  }

  /** The per-node death counts of a report add up to the death log. */
  lemma ReportDeaths(queues: map<Node, seq<Patient>>, resources: map<Resource, int>,
                     waits: map<Node, seq<real>>, deaths: seq<DeathRecord>, j: nat)
    requires forall n :: n in queues && n in waits
    requires j < |AllNodes|
    ensures Report(queues, resources, waits, deaths)[j].deaths == DeathsAt(deaths, AllNodes[j])
    ensures SumTallies(deaths, DeathNode, AllNodes) == |deaths|
  {
    DeathsAddUp(deaths);
  }

  /** The node metrics of a snapshot taken while nothing is queued and no wait is recorded. */
  function IdleNodes(deaths: seq<DeathRecord>): seq<NodeMetrics> {
    seq(|AllNodes|, j requires 0 <= j < |AllNodes| =>
      NodeMetrics(AllNodes[j], 0, 0.0, 0.0, DeathsAt(deaths, AllNodes[j]), Green))
  }

  /** While nothing is queued and no wait is recorded, the whole report is the idle one. */
  lemma IdleReportAll(queues: map<Node, seq<Patient>>, resources: map<Resource, int>,
                      waits: map<Node, seq<real>>, deaths: seq<DeathRecord>)
    requires forall n :: n in queues && queues[n] == [] && n in waits && waits[n] == []
    ensures Report(queues, resources, waits, deaths) == IdleNodes(deaths)
  {
    forall j | 0 <= j < |AllNodes|
      ensures Report(queues, resources, waits, deaths)[j] == IdleNodes(deaths)[j]
    {
      IdleReport(queues, resources, waits, deaths, j);
    }
  }

  /** With no death logged, every node of the idle report reads 0 deaths. */
  lemma IdleNodesNoDeaths(j: nat)
    requires j < |AllNodes|
    ensures IdleNodes([])[j] == NodeMetrics(AllNodes[j], 0, 0.0, 0.0, 0, Green)
  {
    assert DeathsAt([], AllNodes[j]) == 0;
  }

  /** A snapshot taken at time `t` while the engine was idle, with `deaths` logged. */
  ghost predicate IdleSnapshot(s: SimulationSnapshot, t: real, deaths: seq<DeathRecord>) {
    s.time == t && s.nodes == IdleNodes(deaths) && s.totalDeaths == |deaths|
  }

  /** The times of a list of snapshots. */
  function TimesOf(ss: seq<SimulationSnapshot>): seq<real> {
    seq(|ss|, k requires 0 <= k < |ss| => ss[k].time)
  }

  /** No snapshot is pending in `q`. */
  ghost predicate NoSnapshots(q: seq<Event>) {
    forall x :: x in q ==> !x.kind.SnapshotAt?
  }

  /** The result of a run. */
  datatype RunResult = RunResult(snapshots: seq<SimulationSnapshot>, deaths: seq<DeathRecord>,
                                 patients: seq<Patient>)

  /** The part of the engine's state that running an event changes, besides the clock and
      the snapshots: the patients, the roster, the capacities, the event list and the seed. */
  datatype World = World(patients: seq<Patient>, staff: seq<StaffAgent>, resources: map<Resource, int>,
                         queue: seq<Event>, seed: nat)

  /** `processPatientFlow` for patient `i` at clock `time`: the patient moves to the next
      node of the routing table, drawing at ed_service only; a patient who moves on gets a
      step event 10 to 60 minutes on, drawn next; one with no next node is discharged. */
  ghost predicate Routed(i: nat, time: real, w: World, w': World) {
    && i < |w.patients|
    && w'.staff == w.staff && w'.resources == w.resources
    && var p := w.patients[i];
       var d := RouteDraws(p.currentNode);
       var next := Successor(p.currentNode, RouteDraw(p.currentNode, w.seed));
       && w'.patients == w.patients[i := Moved(p, next)]
       && (next.Some? ==>
             && w'.queue == Insert(w.queue, Event(time + UniformValue(Draw(w.seed, d + 1), 10.0, 60.0), PatientStep(i)))
             && w'.seed == Advance(w.seed, d + 1))
       && (next.None? ==> w'.queue == w.queue && w'.seed == Advance(w.seed, d))
  }

  /** `Routed`, in two parts: the routing decision `next` takes the world `w` to `wm`, and
      moving the patient on takes `wm` to `w'`. */
  lemma RoutedBy(i: nat, time: real, next: Option<Node>, w: World, wm: World, w': World)
    requires i < |w.patients| && wm.patients == w.patients && wm.queue == w.queue
    requires next == Successor(w.patients[i].currentNode, RouteDraw(w.patients[i].currentNode, w.seed))
    requires wm.seed == Advance(w.seed, RouteDraws(w.patients[i].currentNode))
    requires w'.staff == w.staff && w'.resources == w.resources
    requires w'.patients == wm.patients[i := Moved(wm.patients[i], next)]
    requires next.Some? ==>
               w'.queue == Insert(wm.queue, Event(time + UniformValue(Draw(wm.seed, 1), 10.0, 60.0), PatientStep(i))) &&
               w'.seed == Advance(wm.seed, 1)
    requires next.None? ==> w'.queue == wm.queue && w'.seed == wm.seed
    ensures Routed(i, time, w, w')
  {
    var d := RouteDraws(w.patients[i].currentNode);
    AdvanceAdd(w.seed, d, 1);
    assert Draw(wm.seed, 1) == Draw(w.seed, d + 1);
  }

  /** The arrival closure at clock `time`: a new patient, numbered after the others, with
      the first two draws, moved on to triage, with a step event 10 to 60 minutes on drawn
      by the third. */
  ghost predicate Admitted(time: real, w: World, w': World) {
    var id := |w.patients|;
    && w'.staff == w.staff && w'.resources == w.resources
    && w'.patients == w.patients + [Moved(NewPatient(id, time, Draw(w.seed, 1), Draw(w.seed, 2)), Some(TriageQueue))]
    && w'.queue == Insert(w.queue, Event(time + UniformValue(Draw(w.seed, 3), 10.0, 60.0), PatientStep(id)))
    && w'.seed == Advance(w.seed, 3)
  }

  /** What the switch of `run` does with event `e` at clock `time`: an arrival admits a
      patient, a step routes its patient, a staff arrival puts its agent on duty with its
      capacity, and a snapshot changes none of these. */
  ghost predicate Ran(e: Event, time: real, w: World, w': World) {
    match e.kind
    case PatientArrival => Admitted(time, w, w')
    case PatientStep(i) => Routed(i, time, w, w')
    case StaffArrival(k) =>
      && k < |w.staff| && w.staff[k].arrivalTime.Some? && EdRes in w.resources && TriageRes in w.resources
      && w' == w.(staff := w.staff[k := w.staff[k].(state := OnDuty)],
                  resources := StaffCapacity(w.resources, w.staff[k].role))
    case SnapshotAt(_) => w' == w
  }

  /** A new patient with the first two draws, routed once with the draws after them, is
      the arrival closure. */
  lemma AdmittedStep(time: real, w: World, p: Patient, wm: World, w': World)
    requires p == NewPatient(|w.patients|, time, Draw(w.seed, 1), Draw(w.seed, 2))
    requires wm == w.(patients := w.patients + [p], seed := Advance(w.seed, 2))
    requires Routed(|w.patients|, time, wm, w')
    ensures Admitted(time, w, w')
  {
    AdvanceAdd(w.seed, 2, 1);
    assert wm.patients[|w.patients|] == p && p.currentNode == Arrival;
    assert RouteDraws(Arrival) == 0 && Successor(Arrival, RouteDraw(Arrival, wm.seed)) == Some(TriageQueue);
    assert Draw(wm.seed, 1) == Draw(w.seed, 3);
    assert wm.patients[|w.patients| := Moved(p, Some(TriageQueue))] ==
           w.patients + [Moved(p, Some(TriageQueue))];
  }

  /** The counts a snapshot takes from the state: the number of patients and the agents on
      duty per role. */
  ghost predicate Counted(s: SimulationSnapshot, np: nat, staff: seq<StaffAgent>) {
    s.totalPatients == np && CountsActive(s.activeStaff, staff)
  }

  class SimulationEngine {
    const rng: SeededRandom
    const config: Config
    /** The floating-point library the samplers use. */
    const math: RealMath
    var time: real
    var patients: seq<Patient>
    var staff: seq<StaffAgent>
    var eventQueue: seq<Event>
    var resources: map<Resource, int>
    var queues: map<Node, seq<Patient>>
    var nodeWaitTimes: map<Node, seq<real>>
    var deaths: seq<DeathRecord>
    var snapshots: seq<SimulationSnapshot>
    var patientIdCounter: nat

    /** The object invariant: the id counter is the number of patients, each patient record
        is well formed, the event list is sorted and names only known patients and agents,
        the capacities have their eleven keys and every node has a queue and a wait record. */
    ghost predicate Valid()
      reads this
    {
      && Sound(math)
      && patientIdCounter == |patients|
      && PatientsOk(patients)
      && QueueOk(eventQueue, |patients|, staff)
      && (forall k: Resource :: k in resources)
      && (forall n :: n in queues && n in nodeWaitTimes)
    }

    /** The state an event changes. */
    ghost function State(): World
      reads this`patients, this`staff, this`resources, this`eventQueue, rng
    {
      World(patients, staff, resources, eventQueue, rng.seed)
    }

    /** Every patient not yet discharged, and every agent with an arrival time not yet on
        duty, has an event in the list, except for the event kinds in `running`. */
    ghost predicate Awaiting(running: set<EventKind>)
      reads this
    {
      AwaitingIn(patients, staff, KindsOf(eventQueue), running)
    }

    ghost predicate Pending()
      reads this
    {
      Awaiting({})
    }

    /** No patient is queued and no wait is recorded at any node. The engine never adds to
        either, so this holds from construction on. */
    ghost predicate Idle()
      reads this
    {
      forall n :: n in queues && queues[n] == [] && n in nodeWaitTimes && nodeWaitTimes[n] == []
    }

    constructor (seed: nat, config: Config, math: RealMath)
      requires Sound(math)
      ensures Valid() && Pending() && Idle() && NotBefore(eventQueue, time)
      ensures NoSnapshots(eventQueue) && SumBy(eventQueue, ArrivalShare) == 0
      ensures this.config == config && this.math == math && fresh(rng)
      ensures time == 0.0 && patients == [] && deaths == [] && snapshots == [] && patientIdCounter == 0
      ensures resources == InitialResources(config.scenario)
      ensures RosterFrom(staff, 0, config.scenario, seed, math)
      ensures eventQueue == StaffQueue([], staff, 0, |staff|) && StaffPending(eventQueue, staff)
      ensures rng.seed == Advance(seed, RosterDrawCount(staff, 0, |staff|, config.scenario))
    {
      rng := new SeededRandom(seed);
      this.config := config;
      this.math := math;
      time := 0.0;
      patients := [];
      staff := [];
      eventQueue := [];
      resources := map[];
      queues := map[];
      nodeWaitTimes := map[];
      deaths := [];
      snapshots := [];
      patientIdCounter := 0;
      new;
      Initialize(seed);
    }

    /** The part of the constructor after the fields have their empty values: capacities,
        roster with its arrival events, and node queues. */
    method Initialize(ghost seed: nat)
      requires Sound(math) && staff == [] && eventQueue == [] && patients == [] && patientIdCounter == 0
      requires rng.seed == seed
      modifies this`resources, this`staff, this`eventQueue, this`queues, this`nodeWaitTimes, rng
      ensures Valid() && Pending() && Idle() && NotBefore(eventQueue, 0.0)
      ensures NoSnapshots(eventQueue) && SumBy(eventQueue, ArrivalShare) == 0
      ensures resources == InitialResources(config.scenario)
      ensures RosterFrom(staff, 0, config.scenario, seed, math)
      ensures eventQueue == StaffQueue([], staff, 0, |staff|) && StaffPending(eventQueue, staff)
      ensures rng.seed == Advance(seed, RosterDrawCount(staff, 0, |staff|, config.scenario))
    {
      InitializeResources();
      InitializeStaff();
      InitializeQueues();
      FreshQueue(staff, eventQueue, config.scenario, seed, math);
      RosterPending(staff, config.scenario, seed, math);
      InitialResourcesKeys(config.scenario);
    }

    /** `initializeResources`. */
    method InitializeResources()
      modifies this`resources
      ensures resources == InitialResources(config.scenario)
    {
      var daytime := config.scenario == Daytime;
      resources := map[TriageRes := if daytime then 4 else 1,
                       EdRes := if daytime then 20 else 2,
                       Ct := 1, Ultrasound := 4, Xray := 2, ResultReview := 4, OrRes := 8,
                       IcuRes := 44, WardRes := 256, ObsRes := 20, Elevator := 2];
    }

    /** `initializeQueues`: an empty queue and an empty wait record for every node. */
    method InitializeQueues()
      modifies this`queues, this`nodeWaitTimes
      ensures forall n :: n in queues && queues[n] == [] && n in nodeWaitTimes && nodeWaitTimes[n] == []
    {
      var j := 0;
      while j < |AllNodes|
        invariant 0 <= j <= |AllNodes|
        invariant forall n :: n in AllNodes[..j] ==>
                    n in queues && queues[n] == [] && n in nodeWaitTimes && nodeWaitTimes[n] == []
      {
        var node := AllNodes[j];
        queues := queues[node := []];
        nodeWaitTimes := nodeWaitTimes[node := []];
        assert AllNodes[..j + 1] == AllNodes[..j] + [node];
        j := j + 1;
      }
      forall n ensures n in AllNodes[..j] {
        AllNodesListed(n);
        assert AllNodes[..j] == AllNodes;
      }
    }

    /** `initializeStaff`: for each role in turn, `PerRole` agents, each drawing a show
        probability; at night each then draws against it, and one who shows draws a travel
        time and gets an arrival event. The new agents follow the old ones; their arrival
        events are scheduled in roster order; the generator advances by `RosterDraws` per
        agent and one more per arrival. */
    method InitializeStaff()
      requires Sound(math)
      modifies this`staff, this`eventQueue, rng
      ensures RosterFrom(staff, |old(staff)|, config.scenario, old(rng.seed), math)
      ensures staff[..|old(staff)|] == old(staff)
      ensures eventQueue == StaffQueue(old(eventQueue), staff, |old(staff)|, |staff|)
      ensures rng.seed == Advance(old(rng.seed), RosterDrawCount(staff, |old(staff)|, |staff|, config.scenario))
    {
      ghost var st0 := staff;
      ghost var q0 := eventQueue;
      ghost var s0 := rng.seed;
      assert staff[..|st0|] == st0;
      var count := if config.scenario == Daytime then 10 else 2;
      var ri := 0;
      while ri < |StaffRoles|
        invariant 0 <= ri <= |StaffRoles|
        invariant BuiltFrom(st0, staff, q0, eventQueue, s0, rng.seed, config.scenario)
        invariant Matches(staff, |st0|, Plan(StaffRoles[..ri], count), config.scenario, s0, math)
      {
        AddRole(StaffRoles[ri], count, st0, q0, s0, Plan(StaffRoles[..ri], count));
        PlanSnoc(StaffRoles, count, ri);
        ri := ri + 1;
      }
      assert StaffRoles[..|StaffRoles|] == StaffRoles;
    }

    /** The inner loop of `initializeStaff`: agents `0` to `count - 1` of `role`. */
    method AddRole(role: Role, count: nat, ghost st0: seq<StaffAgent>, ghost q0: seq<Event>,
                   ghost s0: nat, ghost done: seq<(Role, nat)>)
      requires Sound(math)
      requires BuiltFrom(st0, staff, q0, eventQueue, s0, rng.seed, config.scenario)
      requires Matches(staff, |st0|, done, config.scenario, s0, math)
      modifies this`staff, this`eventQueue, rng
      ensures BuiltFrom(st0, staff, q0, eventQueue, s0, rng.seed, config.scenario)
      ensures Matches(staff, |st0|, done + Block(role, count), config.scenario, s0, math)
    {
      var i := 0;
      while i < count
        invariant 0 <= i <= count
        invariant BuiltFrom(st0, staff, q0, eventQueue, s0, rng.seed, config.scenario)
        invariant Matches(staff, |st0|, done + Block(role, count)[..i], config.scenario, s0, math)
      {
        ghost var before := staff;
        ghost var q1 := eventQueue;
        ghost var s1 := rng.seed;
        ghost var agent := AddAgent(role, i);
        BuiltStep(st0, before, agent, q0, q1, eventQueue, s0, s1, rng.seed, config.scenario);
        MatchesSnoc(before, |st0|, agent, done, Block(role, count), i, config.scenario, s0, math);
        i := i + 1;
      }
      assert Block(role, count)[..count] == Block(role, count);
    }

    /** The agent record of `initializeStaff`: draw the show probability; at night draw
        against it and, when the agent shows, draw a travel time. */
    method DrawAgent(role: Role, i: nat) returns (agent: StaffAgent)
      requires Sound(math)
      modifies rng
      ensures AgentOk(agent, role, i, config.scenario, old(rng.seed), math)
      ensures rng.seed == Advance(old(rng.seed), RosterDraws(config.scenario) + Arrives(agent))
    {
      ghost var s0 := rng.seed;
      var showProbability := rng.Uniform(0.85, 0.95);
      var state := if config.scenario == Daytime then OnDuty else Home;
      var arrivalTime: Option<real> := None;
      if state == Home {
        var u := rng.Random();
        if u < showProbability {
          var params := ArrivalParams(role);
          var t := rng.Triangular(params.min, params.mode, params.max, math);
          arrivalTime := Some(t);
          AdvanceAdd(s0, 2, 1);
        } else {
          AdvanceAdd(s0, 1, 1);
        }
      }
      agent := StaffAgent(role, i, state, arrivalTime, showProbability);
    }

    /** One agent of `initializeStaff`: the record, its arrival event if it has an arrival
        time, and its place at the end of the roster. */
    method AddAgent(role: Role, i: nat) returns (ghost agent: StaffAgent)
      requires Sound(math)
      modifies this`staff, this`eventQueue, rng
      ensures staff == old(staff) + [agent] && AgentOk(agent, role, i, config.scenario, old(rng.seed), math)
      ensures eventQueue == if agent.arrivalTime.Some?
                            then Insert(old(eventQueue), Event(agent.arrivalTime.value, StaffArrival(|old(staff)|)))
                            else old(eventQueue)
      ensures rng.seed == Advance(old(rng.seed), RosterDraws(config.scenario) + Arrives(agent))
    {
      var a := DrawAgent(role, i);
      if a.arrivalTime.Some? {
        ScheduleEvent(a.arrivalTime.value, StaffArrival(|staff|));
      }
      staff := staff + [a];
      agent := a;
    }

    /** `scheduleEvent`: push the entry, then sort stably by time. */
    method ScheduleEvent(t: real, kind: EventKind)
      modifies this`eventQueue
      ensures eventQueue == Insert(old(eventQueue), Event(t, kind))
    {
      var e := Event(t, kind);
      var k := InsertionPoint(eventQueue, t);
      eventQueue := eventQueue[..k] + [e] + eventQueue[k..];
    }

    /** `staffArrives`: the agent goes on duty, and an ED doctor or ED nurse adds one ED or
        triage place. */
    method StaffArrives(k: nat)
      requires Valid() && k < |staff|
      modifies this`staff, this`resources
      ensures staff == old(staff)[k := old(staff)[k].(state := OnDuty)]
      ensures resources == StaffCapacity(old(resources), old(staff)[k].role)
      ensures Valid()
    {
      var agent := staff[k];
      staff := staff[k := agent.(state := OnDuty)];
      if agent.role == EdDoctor {
        resources := resources[EdRes := resources[EdRes] + 1];
      } else if agent.role == EdNurse {
        resources := resources[TriageRes := resources[TriageRes] + 1];
      }
      assert forall x :: x in eventQueue ==> EventOk(x, |patients|, old(staff));
    }

    /** `generatePatient`: one draw for the injury type, one for the severity score, and the
        next id. */
    method GeneratePatient() returns (p: Patient)
      modifies rng, this`patientIdCounter
      ensures patientIdCounter == old(patientIdCounter) + 1
      ensures rng.seed == Advance(old(rng.seed), 2)
      ensures p == NewPatient(old(patientIdCounter), time, Draw(old(rng.seed), 1), Draw(old(rng.seed), 2))
    {
      FirstDraws(rng.seed);
      var u := rng.Random();
      var injuryType := InjuryTypes[InjuryIndex(u)];
      var severityScore := rng.Uniform(0.0, 1.0);
      var severityClass := SeverityOf(severityScore);
      p := Patient(patientIdCounter, time, injuryType, severityScore, severityClass, Arrival, time, 0.0,
                   [Arrival], false, None, None, None, None, None);
      patientIdCounter := patientIdCounter + 1;
    }

    /** `getNextNode`: the routing table, with one draw at ed_service only. */
    method GetNextNode(i: nat) returns (next: Option<Node>)
      requires i < |patients|
      modifies rng
      ensures next == Successor(patients[i].currentNode, RouteDraw(patients[i].currentNode, old(rng.seed)))
      ensures rng.seed == Advance(old(rng.seed), RouteDraws(patients[i].currentNode))
    {
      var current := patients[i].currentNode;
      if current == EdService {
        FirstDraws(rng.seed);
        var u := rng.Random();
        next := if u < 0.5 then Some(ImagingQueue) else Some(Ward);
      } else {
        next := Successor(current, 0.0);
      }
    }

    /** `processPatientFlow`: move the patient to the next node and schedule their next step
        10 to 60 minutes on, or discharge them where they stand. */
    method ProcessPatientFlow(i: nat)
      requires Valid() && i < |patients|
      modifies this`patients, this`eventQueue, rng
      ensures Valid()
      ensures Routed(i, time, old(State()), State())
      ensures NotBefore(old(eventQueue), time) ==> NotBefore(eventQueue, time)
    {
      ghost var w := State();
      ghost var p := patients[i];
      var nextNode := GetNextNode(i);
      MovedOk(p, i, RouteDraw(p.currentNode, w.seed));
      ghost var wm := State();
      MovePatient(i, nextNode);
      StepNotBefore(wm.queue, eventQueue, time, Draw(wm.seed, 1), i, nextNode);
      RoutedBy(i, time, nextNode, w, wm, State());
    }

    /** The rest of `processPatientFlow` once the next node is known: move the patient on
        and schedule their next step 10 to 60 minutes later, or discharge them. */
    method MovePatient(i: nat, next: Option<Node>)
      requires Valid() && i < |patients| && PatientOk(Moved(patients[i], next), i)
      modifies this`patients, this`eventQueue, rng
      ensures Valid()
      ensures patients == old(patients)[i := Moved(old(patients[i]), next)]
      ensures next.Some? ==>
                eventQueue == Insert(old(eventQueue),
                  Event(time + UniformValue(Draw(old(rng.seed), 1), 10.0, 60.0), PatientStep(i))) &&
                rng.seed == Advance(old(rng.seed), 1)
      ensures next.None? ==> eventQueue == old(eventQueue) && rng.seed == old(rng.seed)
    {
      PatientsOkSet(patients, i, Moved(patients[i], next));
      patients := patients[i := Moved(patients[i], next)];
      if next.Some? {
        ScheduleStep(i);
      }
    }

    /** The next step of patient `i`, 10 to 60 minutes after the clock. */
    method ScheduleStep(i: nat)
      requires Valid() && i < |patients|
      modifies this`eventQueue, rng
      ensures Valid()
      ensures eventQueue == Insert(old(eventQueue),
                Event(time + UniformValue(Draw(old(rng.seed), 1), 10.0, 60.0), PatientStep(i)))
      ensures rng.seed == Advance(old(rng.seed), 1)
    {
      var dt := rng.Uniform(10.0, 60.0);
      QueueOkInsert(eventQueue, Event(time + dt, PatientStep(i)), |patients|, staff);
      ScheduleEvent(time + dt, PatientStep(i));
    }

    /** `checkMortality`: with a draw below 0.01 the patient dies of overload at their
        current node, and the death is logged. */
    method CheckMortality(i: nat)
      requires Valid() && i < |patients|
      modifies this`patients, this`deaths, rng
      ensures Valid()
      ensures rng.seed == Advance(old(rng.seed), 1)
      ensures var p := old(patients[i]);
              if Draw(old(rng.seed), 1) < 0.01 then
                patients == old(patients)[i := p.(deathTime := Some(time), deathLocation := Some(p.currentNode),
                                                  deathReason := Some("Overload"))] &&
                deaths == old(deaths) + [DeathRecord(p.id, time, p.currentNode, "Overload")]
              else
                patients == old(patients) && deaths == old(deaths)
    {
      FirstDraws(rng.seed);
      var u := rng.Random();
      if u < 0.01 {
        var p := patients[i];
        patients := patients[i := p.(deathTime := Some(time), deathLocation := Some(p.currentNode),
                                     deathReason := Some("Overload"))];
        deaths := deaths + [DeathRecord(p.id, time, p.currentNode, "Overload")];
      }
    }

    /** `takeSnapshot`: the metrics of every node, in the order the queues were created,
        then the snapshot with the time, the patient and death totals and the staff on duty.
        The sorted copy of a node's waits is used for the p95 wait; the source sorts the
        stored list in place, which changes no value the model keeps, since that list is
        never filled. */
    method TakeSnapshot()
      requires forall n :: n in queues && n in nodeWaitTimes
      modifies this`snapshots
      ensures |snapshots| == |old(snapshots)| + 1 && snapshots[..|old(snapshots)|] == old(snapshots)
      ensures var s := snapshots[|snapshots| - 1];
              && s.time == time && s.nodes == Report(queues, resources, nodeWaitTimes, deaths)
              && s.totalPatients == |patients| && s.totalDeaths == |deaths|
              && CountsActive(s.activeStaff, staff)
    {
      ghost var report := Report(queues, resources, nodeWaitTimes, deaths);
      var nodes: seq<NodeMetrics> := [];
      var j := 0;
      while j < |AllNodes|
        invariant 0 <= j <= |AllNodes|
        invariant nodes == report[..j] && snapshots == old(snapshots)
      {
        var node := AllNodes[j];
        var queue := queues[node];
        var utilization := Utilization(|queue|, Capacity(resources, node));
        var waits := nodeWaitTimes[node];
        var p95Wait := if |waits| > 0 then SortAscending(waits)[P95Index(|waits|)] else 0.0;
        var dead := DeathsAt(deaths, node);
        var color := ColourOf(utilization, p95Wait);
        assert P95(waits) == p95Wait;
        ReportSnoc(queues, resources, nodeWaitTimes, deaths, j, nodes);
        nodes := nodes + [NodeMetrics(node, |queue|, utilization, p95Wait, dead, color)];
        j := j + 1;
      }
      assert report[..j] == report;
      var activeStaff := GetActiveStaffCount();
      snapshots := snapshots + [SimulationSnapshot(time, nodes, |patients|, |deaths|, activeStaff)];
    }

    /** `getArrivalsAtTime`: one Poisson call with the rate of minute `time`. The count is
        never negative, and below rate 30 there always is one. */
    method GetArrivalsAtTime(time: real) returns (n: Option<int>)
      requires Sound(math)
      modifies rng
      ensures Sampled(old(rng.seed), PoissonCall(ArrivalRate(config, time)), math,
                      if n.Some? then Count(n.value) else GaveUp, rng.seed)
      ensures n.Some? ==> n.value >= 0
      ensures ArrivalRate(config, time) < 30.0 ==> n.Some?
    {
      var hour := time / 60.0;
      var multiplier := if hour < 6.0 then config.k1 else if hour < 24.0 then config.k2 else config.k3;
      var lambda := Scale(config.baselineEDDaily / 24.0, multiplier);
      n := rng.Poisson(lambda, math);
    }

    /** The first loop of `run`: for every minute of the horizon, draw the number of arrivals
        and schedule one arrival event per patient at that minute. The ghost results record
        the counts drawn and the seeds the draws start from. `ok` is false when a draw never
        ends, at a minute whose rate is 30 or more; the draws before it have been made. */
    method ScheduleArrivals() returns (ok: bool, ghost counts: seq<nat>, ghost seeds: seq<nat>)
      requires Valid()
      modifies this`eventQueue, rng
      ensures Valid()
      ensures forall x :: x in eventQueue ==>
                x in old(eventQueue) || (x.kind == PatientArrival && 0.0 <= x.time < HorizonMinutes as real)
      ensures KindsOf(old(eventQueue)) <= KindsOf(eventQueue)
      ensures SnapshotTimes(eventQueue) == old(SnapshotTimes(eventQueue))
      ensures |seeds| == |counts| + 1 && seeds[0] == old(rng.seed) && ArrivalDraws(config, math, seeds, counts)
      ensures ok ==> |counts| == HorizonMinutes && rng.seed == seeds[|counts|] &&
                     eventQueue == InsertAll(old(eventQueue), ArrivalEvents(counts))
      ensures !ok ==> |counts| < HorizonMinutes && MinuteRate(config, |counts|) >= 30.0 &&
                      Sampled(seeds[|counts|], PoissonCall(MinuteRate(config, |counts|)), math, GaveUp, rng.seed)
    {
      ghost var q0 := eventQueue;
      counts, seeds := [], [rng.seed];
      var nextArrival: nat := 0;
      while nextArrival < HorizonMinutes
        invariant nextArrival <= HorizonMinutes && |counts| == nextArrival
        invariant |seeds| == |counts| + 1 && seeds[0] == old(rng.seed) && rng.seed == seeds[|counts|]
        invariant ArrivalDraws(config, math, seeds, counts)
        invariant eventQueue == InsertAll(q0, ArrivalEvents(counts))
        invariant Valid() && ArrivalsSoFar(q0, eventQueue)
      {
        var arrivals := GetArrivalsAtTime(nextArrival as real);
        if arrivals.None? {
          return false, counts, seeds;
        }
        ArrivalDrawsSnoc(config, math, seeds, counts, arrivals.value, rng.seed);
        ArrivalEventsSnoc(counts, arrivals.value);
        ScheduleMinute(nextArrival, arrivals.value, q0, ArrivalEvents(counts));
        counts, seeds := counts + [arrivals.value], seeds + [rng.seed];
        nextArrival := nextArrival + 1;
      }
      ok := true;
    }

    /** The inner loop of the first loop of `run`: `n` arrival events at minute `t`, after the
        events `es` already scheduled on the list `q0`. */
    method ScheduleMinute(t: nat, n: nat, ghost q0: seq<Event>, ghost es: seq<Event>)
      requires Valid() && ArrivalsSoFar(q0, eventQueue) && t < HorizonMinutes
      requires eventQueue == InsertAll(q0, es)
      modifies this`eventQueue
      ensures Valid() && ArrivalsSoFar(q0, eventQueue)
      ensures eventQueue == InsertAll(q0, es + Arrivals(t, n))
    {
      var i := 0;
      NoArrivals(es, t);
      while i < n
        invariant 0 <= i <= n
        invariant eventQueue == InsertAll(q0, es + Arrivals(t, i))
        invariant Valid() && ArrivalsSoFar(q0, eventQueue)
      {
        ArrivalsSoFarStep(q0, eventQueue, t, |patients|, staff);
        InsertAllArrival(q0, es, t, i);
        ScheduleEvent(t as real, PatientArrival);
        i := i + 1;
      }
    }

    /** The second loop of `run`: a snapshot event at times 0, iv, 2 iv, ... up to the
        horizon. Times are the exact multiples of the interval. */
    method ScheduleSnapshots()
      requires Valid() && config.snapshotInterval > 0.0 && NoSnapshots(eventQueue) && NotBefore(eventQueue, 0.0)
      modifies this`eventQueue
      ensures Valid()
      ensures forall x :: x in eventQueue ==> x in old(eventQueue) || x.kind.SnapshotAt?
      ensures KindsOf(old(eventQueue)) <= KindsOf(eventQueue)
      ensures SnapshotTimes(eventQueue) == SnapshotSchedule(config.snapshotInterval)
      ensures NotBefore(eventQueue, 0.0) && ArrivalsFirst(eventQueue)
      ensures eventQueue == InsertAll(old(eventQueue), SnapshotEvents(config.snapshotInterval,
                                                                     SnapshotCount(config.snapshotInterval)))
      ensures SumBy(eventQueue, ArrivalShare) == old(SumBy(eventQueue, ArrivalShare))
    {
      ghost var q0 := eventQueue;
      var iv := config.snapshotInterval;
      SnapshotsSoFarStart(eventQueue, iv);
      var t := 0.0;
      ghost var k: nat := 0;
      while t <= HorizonMinutes as real
        invariant t == SnapshotTime(k, iv)
        invariant Valid() && SnapshotsSoFar(q0, eventQueue, iv, k)
        decreases SnapshotCount(iv) - k
      {
        SnapshotsSoFarStep(q0, eventQueue, iv, k, |patients|, staff);
        ScheduleEvent(t, SnapshotAt(t));
        t := t + iv;
        k := k + 1;
      }
      SnapshotsSoFarEnd(q0, eventQueue, iv, k);
    }

    /** The arrival closure of `run`: create a patient, add them to the list and route
        them. */
    method ArrivalEvent()
      requires Valid() && Awaiting({PatientArrival}) && NotBefore(eventQueue, time)
      modifies this`patients, this`patientIdCounter, this`eventQueue, rng
      ensures Valid() && Pending() && NotBefore(eventQueue, time)
      ensures Admitted(time, old(State()), State())
      ensures |patients| == |old(patients)| + 1
      ensures Weight(eventQueue, patients) < old(Weight(eventQueue, patients)) + Rem(Arrival) + 1
      ensures SumBy(eventQueue, ArrivalShare) == old(SumBy(eventQueue, ArrivalShare))
      ensures SnapshotTimes(eventQueue) == old(SnapshotTimes(eventQueue))
    {
      ghost var w := State();
      ghost var p := NewPatient(|w.patients|, time, Draw(w.seed, 1), Draw(w.seed, 2));
      AddPatient();
      ghost var wm := State();
      StepEvent(|patients| - 1);
      AdmittedStep(time, w, p, wm, State());
    }

    /** The first half of the arrival closure: create the patient and add them to the list,
        with their first step still to come. */
    method AddPatient()
      requires Valid() && Awaiting({PatientArrival})
      modifies this`patients, this`patientIdCounter, rng
      ensures patients == old(patients) + [NewPatient(|old(patients)|, time, Draw(old(rng.seed), 1),
                                                      Draw(old(rng.seed), 2))]
      ensures Valid() && Awaiting({PatientStep(|patients| - 1)})
      ensures rng.seed == Advance(old(rng.seed), 2)
      ensures Weight(eventQueue, patients) <= old(Weight(eventQueue, patients))
    {
      var patient := GeneratePatient();
      PatientsOkAppend(patients, patient);
      QueueOkSteps(eventQueue, |patients|, staff);
      QueueOkGrow(eventQueue, |patients|, |patients| + 1, staff);
      WeightAppend(eventQueue, patients, patient);
      AwaitingAppend(patients, staff, KindsOf(eventQueue), patient);
      patients := patients + [patient];
    }

    /** The step closure of `processPatientFlow`: route patient `i` one node on. */
    method StepEvent(i: nat)
      requires Valid() && Awaiting({PatientStep(i)}) && i < |patients| && NotBefore(eventQueue, time)
      modifies this`patients, this`eventQueue, rng
      ensures Valid() && Pending() && NotBefore(eventQueue, time)
      ensures Routed(i, time, old(State()), State())
      ensures |patients| == |old(patients)|
      ensures Weight(eventQueue, patients) < old(Weight(eventQueue, patients)) + PatientWeight(old(patients[i])) + 1
      ensures SumBy(eventQueue, ArrivalShare) == old(SumBy(eventQueue, ArrivalShare))
      ensures SnapshotTimes(eventQueue) == old(SnapshotTimes(eventQueue))
    {
      ghost var ps0 := patients;
      ghost var q0 := eventQueue;
      ghost var s0 := rng.seed;
      QueueOkSteps(eventQueue, |patients|, staff);
      ProcessPatientFlow(i);
      StepFacts(q0, eventQueue, ps0, i, RouteDraw(ps0[i].currentNode, s0),
                time + UniformValue(Draw(s0, RouteDraws(ps0[i].currentNode) + 1), 10.0, 60.0));
      AwaitingStep(ps0, staff, KindsOf(q0), KindsOf(eventQueue), i, patients[i]);
    }

    /** The snapshot closure of `run`: set the clock and take the snapshot. */
    method SnapshotEvent(t: real)
      requires Valid() && Idle()
      modifies this`time, this`snapshots
      ensures time == t
      ensures |snapshots| == |old(snapshots)| + 1 && snapshots[..|old(snapshots)|] == old(snapshots)
      ensures IdleSnapshot(snapshots[|old(snapshots)|], t, deaths)
      ensures Counted(snapshots[|old(snapshots)|], |patients|, staff)
    {
      time := t;
      TakeSnapshot();
      IdleReportAll(queues, resources, nodeWaitTimes, deaths);
    }

    /** Runs event `e`, already taken off the front of the list, with the clock at its time:
        the body of the drain loop of `run`. Afterwards every patient and agent still waiting
        has an event pending again, the weight is below what it was with `e` still in the list,
        and a snapshot event has added one idle snapshot. */
    method RunEvent(e: Event)
      requires Valid() && Awaiting({e.kind}) && Idle() && EventOk(e, |patients|, staff)
      requires time == e.time && NotBefore(eventQueue, time)
      modifies this`time, this`patients, this`patientIdCounter, this`eventQueue, this`staff,
               this`resources, this`snapshots, rng
      ensures Valid() && Pending() && time == old(time) && NotBefore(eventQueue, time)
      ensures Ran(e, time, old(State()), State())
      ensures Weight(eventQueue, patients) < old(Weight(eventQueue, patients)) + EventWeight(e, old(patients))
      ensures |patients| + SumBy(eventQueue, ArrivalShare) ==
              old(|patients| + SumBy(eventQueue, ArrivalShare)) + ArrivalShare(e)
      ensures SnapshotTimes(eventQueue) == old(SnapshotTimes(eventQueue))
      ensures Snapped(e, old(snapshots), snapshots, deaths, |patients|, staff)
    {
      match e.kind {
        case PatientArrival =>
          ArrivalEvent();
        case PatientStep(i) =>
          StepEvent(i);
        case StaffArrival(k) =>
          AwaitingStaff(patients, staff, KindsOf(eventQueue), k);
          StaffArrives(k);
        case SnapshotAt(t) =>
          AwaitingSnapshot(patients, staff, KindsOf(eventQueue), e.kind);
          SnapshotEvent(t);
      }
    }

    /** The body of the drain loop of `run`: take the front event off the list, set the
        clock to its time and run it. */
    method Step(ghost e0: Event, ghost w0: World)
      requires Valid() && Pending() && Idle() && eventQueue != [] && NotBefore(eventQueue, time)
      requires e0 == eventQueue[0] && w0 == State().(queue := eventQueue[1..])
      modifies this`time, this`patients, this`patientIdCounter, this`eventQueue, this`staff,
               this`resources, this`snapshots, rng
      ensures Valid() && Pending() && NotBefore(eventQueue, time)
      ensures time == e0.time && old(time) <= time
      ensures Ran(e0, time, w0, State())
      ensures Weight(eventQueue, patients) < old(Weight(eventQueue, patients))
      ensures |patients| + SumBy(eventQueue, ArrivalShare) == old(|patients| + SumBy(eventQueue, ArrivalShare))
      ensures SnapshotTimes(eventQueue) == old(SnapshotTimes(eventQueue[1..]))
      ensures Snapped(e0, old(snapshots), snapshots, deaths, |patients|, staff)
    {
      var e := eventQueue[0];
      FrontStep(eventQueue, patients, staff, time);
      eventQueue := eventQueue[1..];
      time := e.time;
      RunEvent(e);
    }

    /** One turn of the drain loop: `Step`, keeping the loop's account of the snapshots
        taken and of the agents put on duty. */
    method DrainStep(ghost s0: seq<SimulationSnapshot>, ghost st0: seq<StaffAgent>, ghost times: seq<real>,
                     ghost r0: map<Resource, int>)
      requires Valid() && Pending() && Idle() && eventQueue != [] && NotBefore(eventQueue, time)
      requires Taken(s0, snapshots, times, eventQueue, deaths, |patients|) && Promoted(st0, staff)
      requires StaffedFrom(r0, st0, staff, resources, eventQueue)
      modifies this`time, this`patients, this`patientIdCounter, this`eventQueue, this`staff,
               this`resources, this`snapshots, rng
      ensures Valid() && Pending() && NotBefore(eventQueue, time) && old(time) <= time
      ensures Weight(eventQueue, patients) < old(Weight(eventQueue, patients))
      ensures |patients| + SumBy(eventQueue, ArrivalShare) == old(|patients| + SumBy(eventQueue, ArrivalShare))
      ensures Taken(s0, snapshots, times, eventQueue, deaths, |patients|) && Promoted(st0, staff)
      ensures StaffedFrom(r0, st0, staff, resources, eventQueue)
    {
      ghost var ss := snapshots;
      ghost var q := eventQueue;
      ghost var w := State().(queue := q[1..]);
      Step(q[0], w);
      RanGrows(q[0], time, w, State());
      TakenStep(s0, ss, snapshots, times, q, eventQueue, deaths, |w.patients|, |patients|, staff);
      StaffedStep(r0, st0, q, time, w, State());
      PromotedStep(st0, q[0], time, w, State());
    }

    /** The loop of `Drain`. */
    method DrainLoop(ghost s0: seq<SimulationSnapshot>, ghost st0: seq<StaffAgent>, ghost times: seq<real>,
                     ghost r0: map<Resource, int>)
      requires Valid() && Pending() && Idle() && NotBefore(eventQueue, time)
      requires Taken(s0, snapshots, times, eventQueue, deaths, |patients|) && Promoted(st0, staff)
      requires StaffedFrom(r0, st0, staff, resources, eventQueue)
      modifies this`time, this`patients, this`patientIdCounter, this`eventQueue, this`staff,
               this`resources, this`snapshots, rng
      ensures Valid() && Pending() && eventQueue == [] && old(time) <= time
      ensures |patients| == old(|patients| + SumBy(eventQueue, ArrivalShare))
      ensures Taken(s0, snapshots, times, [], deaths, |patients|) && Promoted(st0, staff)
      ensures StaffedFrom(r0, st0, staff, resources, eventQueue)
    {
      ghost var total := |patients| + SumBy(eventQueue, ArrivalShare);
      while eventQueue != []
        invariant Valid() && Pending() && Idle()
        invariant NotBefore(eventQueue, time) && old(time) <= time
        invariant |patients| + SumBy(eventQueue, ArrivalShare) == total
        invariant Taken(s0, snapshots, times, eventQueue, deaths, |patients|) && Promoted(st0, staff)
        invariant StaffedFrom(r0, st0, staff, resources, eventQueue)
        decreases Weight(eventQueue, patients)
      {
        DrainStep(s0, st0, times, r0);
      }
    }

    /** The third loop of `run`: run the front event until the list is empty. The loop ends
        because every step lowers `Weight`. Every arrival event pending at the start becomes a
        patient, and every snapshot event an idle snapshot, in the order of their times. */
    method Drain()
      requires Valid() && Pending() && Idle() && NotBefore(eventQueue, time) && StaffPending(eventQueue, staff)
      modifies this`time, this`patients, this`patientIdCounter, this`eventQueue, this`staff,
               this`resources, this`snapshots, rng
      ensures Valid() && Pending() && eventQueue == [] && old(time) <= time
      ensures |patients| == old(|patients| + SumBy(eventQueue, ArrivalShare))
      ensures Drained(old(snapshots), snapshots, old(SnapshotTimes(eventQueue)), deaths, |patients|)
      ensures Rostered(old(staff), staff) && Discharged(patients)
      ensures resources == Arrived(old(resources), old(staff))
    {
      ghost var s0 := snapshots;
      ghost var st0 := staff;
      ghost var r0 := resources;
      ghost var times := SnapshotTimes(eventQueue);
      assert snapshots[|s0|..] == [];
      StaffedStart(r0, st0, eventQueue);
      DrainLoop(s0, st0, times, r0);
      TakenEnd(s0, snapshots, times, deaths, |patients|);
      assert KindsOf(eventQueue) == {};
      AwaitingNone(patients, staff);
      PromotedEnd(st0, staff);
      StaffedEnd(r0, st0, staff, resources, eventQueue);
    }

    /** `run`: schedule the arrivals and the snapshots, drain the event list, and return the
        snapshots, the death log and the patients. `None` stands for a run that never ends: a
        snapshot interval that is not positive, or an arrival draw at rate 30 or more that
        never ends. A run that ends has discharged every patient along one of the two routes
        of the routing table, brought every agent with an arrival time on duty and logged no
        death, and holds one idle snapshot per multiple of the interval up to the horizon. */
    method Run() returns (r: Option<RunResult>, ghost counts: seq<nat>, ghost seeds: seq<nat>)
      requires Valid() && Pending() && Idle() && StaffPending(eventQueue, staff)
      requires NoSnapshots(eventQueue) && snapshots == [] && deaths == []
      requires time == 0.0 && NotBefore(eventQueue, 0.0)
      modifies this`time, this`patients, this`patientIdCounter, this`eventQueue, this`staff,
               this`resources, this`snapshots, rng
      ensures config.snapshotInterval <= 0.0 ==> r.None?
      ensures r.None? ==> config.snapshotInterval <= 0.0 ||
                          exists t: nat :: t < HorizonMinutes && MinuteRate(config, t) >= 30.0
      ensures |seeds| == |counts| + 1 && seeds[0] == old(rng.seed) && ArrivalDraws(config, math, seeds, counts)
      ensures r.Some? ==> r.value == RunResult(snapshots, deaths, patients) && eventQueue == [] && deaths == []
      ensures r.Some? ==> |counts| == HorizonMinutes &&
                          |patients| == old(|patients| + SumBy(eventQueue, ArrivalShare)) + Total(counts)
      ensures r.Some? ==> Discharged(patients) && Rostered(old(staff), staff)
      ensures r.Some? ==> resources == Arrived(old(resources), old(staff))
      ensures r.Some? ==> SnapshotsTaken(snapshots, config.snapshotInterval, [], |patients|)
    {
      ghost var q0 := eventQueue;
      var ok;
      ok, counts, seeds := ScheduleArrivals();
      AwaitingMore(patients, staff, KindsOf(q0), KindsOf(eventQueue), {});
      ArrivalsAdded(q0, eventQueue);
      if !ok {
        return None, counts, seeds;
      }
      if config.snapshotInterval <= 0.0 {
        return None, counts, seeds;
      }
      InsertAllSum(q0, ArrivalEvents(counts), ArrivalShare);
      ArrivalEventsSum(counts);
      PendingArrivals(q0, counts, staff);
      var result := Finish();
      r := Some(result);
    }

    /** The part of `run` after the arrivals are scheduled: schedule the snapshots and drain
        the event list. */
    method Finish() returns (r: RunResult)
      requires Valid() && Pending() && Idle() && config.snapshotInterval > 0.0 && StaffPending(eventQueue, staff)
      requires NoSnapshots(eventQueue) && snapshots == [] && deaths == []
      requires time == 0.0 && NotBefore(eventQueue, 0.0)
      modifies this`time, this`patients, this`patientIdCounter, this`eventQueue, this`staff,
               this`resources, this`snapshots, rng
      ensures r == RunResult(snapshots, deaths, patients) && eventQueue == [] && deaths == []
      ensures |patients| == old(|patients| + SumBy(eventQueue, ArrivalShare))
      ensures Discharged(patients) && Rostered(old(staff), staff)
      ensures resources == Arrived(old(resources), old(staff))
      ensures SnapshotsTaken(snapshots, config.snapshotInterval, [], |patients|)
    {
      ghost var k0 := KindsOf(eventQueue);
      ghost var q0 := eventQueue;
      ScheduleSnapshots();
      PendingSnapshots(q0, config.snapshotInterval, SnapshotCount(config.snapshotInterval), staff);
      AwaitingMore(patients, staff, k0, KindsOf(eventQueue), {});
      r := DrainSchedule();
    }

    /** The drain of `run` once the snapshots are scheduled, and its result. */
    method DrainSchedule() returns (r: RunResult)
      requires Valid() && Pending() && Idle() && config.snapshotInterval > 0.0 && StaffPending(eventQueue, staff)
      requires SnapshotTimes(eventQueue) == SnapshotSchedule(config.snapshotInterval)
      requires snapshots == [] && deaths == [] && NotBefore(eventQueue, time)
      modifies this`time, this`patients, this`patientIdCounter, this`eventQueue, this`staff,
               this`resources, this`snapshots, rng
      ensures r == RunResult(snapshots, deaths, patients) && eventQueue == [] && deaths == []
      ensures |patients| == old(|patients| + SumBy(eventQueue, ArrivalShare))
      ensures Discharged(patients) && Rostered(old(staff), staff)
      ensures resources == Arrived(old(resources), old(staff))
      ensures SnapshotsTaken(snapshots, config.snapshotInterval, [], |patients|)
    {
      Drain();
      DrainedSchedule(snapshots, config.snapshotInterval, deaths, |patients|);
      r := RunResult(snapshots, deaths, patients);
    }

    /** `getActiveStaffCount`: the number of agents on duty per role, with a key only for a
        role that has one. */
    method GetActiveStaffCount() returns (counts: map<Role, nat>)
      ensures CountsActive(counts, staff)
    {
      counts := map[];
      var i := 0;
      while i < |staff|
        invariant 0 <= i <= |staff|
        invariant CountsActive(counts, staff[..i])
      {
        var agent := staff[i];
        if agent.state == OnDuty {
          counts := counts[agent.role := (if agent.role in counts then counts[agent.role] else 0) + 1];
        }
        assert staff[..i + 1][..i] == staff[..i];
        i := i + 1;
      }
      assert staff[..|staff|] == staff;
    }
  }
}
