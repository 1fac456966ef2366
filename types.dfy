/**
  The records of src/types/simulation.ts and the constant tables of
  src/lib/simulationEngine.ts: nodes, injury and severity classes, staff roles, patients,
  staff agents, per-node metrics, snapshots, death records and the run configuration.

  The source names nodes, roles and injury types by strings; here each is an enumeration,
  with a function giving the source's string where the engine compares or prints one.
 */
module SimulationTypes {
  import opened Wrappers

  /** The nodes of the hospital flow. */
  datatype Node =
    | Arrival | TriageQueue | TriageService | EdQueue | EdService
    | ImagingQueue | ImagingService | ResultReviewQueue | ResultReviewService
    | Obs | OrQueue | InOr | IcuWait | Icu | Ward | Discharge | TransferOut | ElevatorQueue

  /** The nodes in the order the engine creates their queues. */
  const AllNodes: seq<Node> :=
    [Arrival, TriageQueue, TriageService, EdQueue, EdService, ImagingQueue, ImagingService,
     ResultReviewQueue, ResultReviewService, Obs, OrQueue, InOr, IcuWait, Icu, Ward,
     Discharge, TransferOut, ElevatorQueue]

  /** The string the source uses for a node. */
  function NodeName(n: Node): string {
    match n
    case Arrival => "arrival"
    case TriageQueue => "triage_queue"
    case TriageService => "triage_service"
    case EdQueue => "ed_queue"
    case EdService => "ed_service"
    case ImagingQueue => "imaging_queue"
    case ImagingService => "imaging_service"
    case ResultReviewQueue => "result_review_queue"
    case ResultReviewService => "result_review_service"
    case Obs => "obs"
    case OrQueue => "or_queue"
    case InOr => "in_or"
    case IcuWait => "icu_wait"
    case Icu => "icu"
    case Ward => "ward"
    case Discharge => "discharge"
    case TransferOut => "transfer_out"
    case ElevatorQueue => "elevator_queue"
  }

  /** How often `n` occurs in `ns`. */
  function Occurrences<T(==)>(ns: seq<T>, n: T): nat {
    if ns == [] then 0 else (if ns[0] == n then 1 else 0) + Occurrences(ns[1..], n)
  }

  /** No element occurs twice. */
  predicate Distinct<T(==)>(ns: seq<T>) {
    forall i, j :: 0 <= i < j < |ns| ==> ns[i] != ns[j]
  }

  /** An element of a sequence without repetitions occurs in it exactly once. */
  lemma {:induction false} OccursOnce<T>(ns: seq<T>, n: T)
    requires Distinct(ns) && n in ns
    ensures Occurrences(ns, n) == 1
  {
    if ns[0] == n {
      OccursNot(ns[1..], n);
    } else {
      assert n in ns[1..];
      OccursOnce(ns[1..], n);
    }
  }

  lemma {:induction false} OccursNot<T>(ns: seq<T>, n: T)
    requires n !in ns
    ensures Occurrences(ns, n) == 0
  {
    if ns != [] {
      OccursNot(ns[1..], n);
    }
  }

  /** The node list names every node exactly once. */
  lemma AllNodesOnce(n: Node)
    ensures Occurrences(AllNodes, n) == 1
  {
    assert forall i :: 0 <= i < |AllNodes| ==> NodeIndex(AllNodes[i]) == i;
    OccursOnce(AllNodes, n);
  }

  /** The position of a node in the node list. */
  function NodeIndex(n: Node): nat {
    match n
    case Arrival => 0
    case TriageQueue => 1
    case TriageService => 2
    case EdQueue => 3
    case EdService => 4
    case ImagingQueue => 5
    case ImagingService => 6
    case ResultReviewQueue => 7
    case ResultReviewService => 8
    case Obs => 9
    case OrQueue => 10
    case InOr => 11
    case IcuWait => 12
    case Icu => 13
    case Ward => 14
    case Discharge => 15
    case TransferOut => 16
    case ElevatorQueue => 17
  }

  /** Every node is in the node list. */
  lemma AllNodesListed(n: Node)
    ensures n in AllNodes
  {
  }

  /** The injury types, in the order of the table the engine draws from. */
  datatype InjuryType = Multitrauma | Head | Thorax | Abdomen | Extremity | Crush | MinorInjury

  const InjuryTypes: seq<InjuryType> :=
    [Multitrauma, Head, Thorax, Abdomen, Extremity, Crush, MinorInjury]

  datatype SeverityClass = Minor | Moderate | Severe | Critical

  /** The staff roles, in the order the roster is built. */
  datatype Role = EdDoctor | EdNurse | Surgeon | Anesthetist | IcuNurse | WardNurse | RadiologyTech | Porter

  const StaffRoles: seq<Role> :=
    [EdDoctor, EdNurse, Surgeon, Anesthetist, IcuNurse, WardNurse, RadiologyTech, Porter]

  /** The roster names every role exactly once. */
  lemma StaffRolesOnce(r: Role)
    ensures Occurrences(StaffRoles, r) == 1
  {
    assert forall i :: 0 <= i < |StaffRoles| ==> RoleIndex(StaffRoles[i]) == i;
    OccursOnce(StaffRoles, r);
  }

  /** The position of a role in the roster order. */
  function RoleIndex(r: Role): nat {
    match r
    case EdDoctor => 0
    case EdNurse => 1
    case Surgeon => 2
    case Anesthetist => 3
    case IcuNurse => 4
    case WardNurse => 5
    case RadiologyTech => 6
    case Porter => 7
  }

  /** The parameters of a triangular distribution. */
  datatype Triangle = Triangle(min: real, mode: real, max: real)

  /** The travel-time distribution, in minutes, of a role called in from home. */
  function ArrivalParams(r: Role): (t: Triangle)
    ensures 0.0 < t.min < t.mode < t.max
  {
    match r
    case EdDoctor => Triangle(20.0, 45.0, 120.0)
    case EdNurse => Triangle(15.0, 40.0, 100.0)
    case Surgeon => Triangle(30.0, 60.0, 180.0)
    case Anesthetist => Triangle(30.0, 60.0, 180.0)
    case RadiologyTech => Triangle(30.0, 75.0, 180.0)
    case Porter => Triangle(20.0, 50.0, 150.0)
    case IcuNurse => Triangle(20.0, 50.0, 150.0)
    case WardNurse => Triangle(20.0, 50.0, 150.0)
  }

  /** A patient. The source's string id `patient_<n>` is the number `n`; the source's
      `currentNode` and `path` strings are nodes. */
  datatype Patient = Patient(
    id: nat,
    arrivalTime: real,
    injuryType: InjuryType,
    severityScore: real,
    severityClass: SeverityClass,
    currentNode: Node,
    queueEntryTime: real,
    totalWaitTime: real,
    path: seq<Node>,
    discharged: bool,
    deathTime: Option<real>,
    deathLocation: Option<Node>,
    deathReason: Option<string>,
    losWard: Option<real>,
    losIcu: Option<real>)

  datatype StaffState = Home | Traveling | OnDuty | Unavailable

  /** A staff agent. The source's string id `<role>_<i>` is the pair (role, index). */
  datatype StaffAgent = StaffAgent(
    role: Role,
    index: nat,
    state: StaffState,
    arrivalTime: Option<real>,
    showProbability: real)

  datatype Colour = Green | Orange | Red

  /** The metrics of one node in a snapshot. */
  datatype NodeMetrics = NodeMetrics(
    node: Node,
    queueLength: nat,
    utilization: real,
    p95Wait: real,
    deaths: nat,
    color: Colour)

  /** The state of the hospital at one instant. `activeStaff` has a key only for a role with
      at least one agent on duty, as the source's object does. */
  datatype SimulationSnapshot = SimulationSnapshot(
    time: real,
    nodes: seq<NodeMetrics>,
    totalPatients: nat,
    totalDeaths: nat,
    activeStaff: map<Role, nat>)

  /** An entry of the death log. */
  datatype DeathRecord = DeathRecord(patientId: nat, time: real, location: Node, reason: string)

  datatype Scenario = Daytime | Nighttime

  /** The configuration fields the engine reads. */
  datatype Config = Config(
    scenario: Scenario,
    baselineEDDaily: real,
    k1: real,
    k2: real,
    k3: real,
    snapshotInterval: real)
}
