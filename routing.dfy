/**
  The routing table of `getNextNode` (src/lib/simulationEngine.ts): the node after the
  patient's current one, and the shape of every path a patient can follow from arrival.
 */
module Routing {
  import opened Wrappers
  import opened SimulationTypes

  /** Only ed_service consults the generator. */
  predicate NeedsDraw(n: Node) {
    n == EdService
  }

  /** The node after `n`; `u` is the draw made at ed_service (ignored elsewhere). None means
      the patient is discharged where they stand. */
  function Successor(n: Node, u: real): Option<Node> {
    match n
    case Arrival => Some(TriageQueue)
    case TriageQueue => Some(TriageService)
    case TriageService => Some(EdQueue)
    case EdQueue => Some(EdService)
    case EdService => if u < 0.5 then Some(ImagingQueue) else Some(Ward)
    case ImagingQueue => Some(ImagingService)
    case ImagingService => Some(ResultReviewQueue)
    case ResultReviewQueue => Some(ResultReviewService)
    case ResultReviewService => Some(Ward)
    case Ward => Some(Discharge)
    case _ => None
  }

  /** Every node that can follow `n`, whatever the draw. */
  function Successors(n: Node): set<Node> {
    (if Successor(n, 0.0).Some? then {Successor(n, 0.0).value} else {}) +
    (if Successor(n, 0.5).Some? then {Successor(n, 0.5).value} else {})
  }

  /** A node where routing stops. */
  predicate Terminal(n: Node) {
    Successor(n, 0.0).None?
  }

  /** The routing outcome of a node other than ed_service does not depend on the draw; the
      successor found is one of `Successors(n)`; there is none exactly at a terminal node,
      and then `Successors(n)` is empty. */
  lemma SuccessorFacts(n: Node, u: real, v: real)
    ensures !NeedsDraw(n) ==> Successor(n, u) == Successor(n, v)
    ensures Successor(n, u).None? <==> Terminal(n)
    ensures Successor(n, u).Some? ==> Successor(n, u).value in Successors(n)
    ensures Terminal(n) <==> Successors(n) == {}
  {
  }

  /** The most routing steps left from `n`. */
  function Rem(n: Node): nat {
    match n
    case Arrival => 10
    case TriageQueue => 9
    case TriageService => 8
    case EdQueue => 7
    case EdService => 6
    case ImagingQueue => 5
    case ImagingService => 4
    case ResultReviewQueue => 3
    case ResultReviewService => 2
    case Ward => 1
    case _ => 0
  }

  /** Every routing step moves closer to discharge. */
  lemma SuccessorDecreases(n: Node, u: real)
    ensures Successor(n, u).Some? ==> Rem(Successor(n, u).value) < Rem(n)
  {
  }

  /** Each node of the path can follow the one before it. */
  predicate IsRoute(path: seq<Node>) {
    forall i :: 0 < i < |path| ==> path[i] in Successors(path[i - 1])
  }

  /** The path of a patient sent from ed_service straight to the ward. */
  const Direct: seq<Node> := [Arrival, TriageQueue, TriageService, EdQueue, EdService, Ward, Discharge]

  /** The path of a patient sent from ed_service to imaging. */
  const ViaImaging: seq<Node> :=
    [Arrival, TriageQueue, TriageService, EdQueue, EdService, ImagingQueue, ImagingService,
     ResultReviewQueue, ResultReviewService, Ward, Discharge]

  /** A route stays a route after one more routing step. */
  lemma RouteExtend(path: seq<Node>, u: real)
    requires path != [] && IsRoute(path) && Successor(path[|path| - 1], u).Some?
    ensures IsRoute(path + [Successor(path[|path| - 1], u).value])
  {
    SuccessorFacts(path[|path| - 1], u, u);
  }

  /** A route from arrival is the start of one of the two paths. */
  lemma {:induction false} RouteIsPrefix(path: seq<Node>)
    requires path != [] && path[0] == Arrival && IsRoute(path)
    ensures path <= Direct || path <= ViaImaging
  {
    if |path| > 1 {
      var init := path[..|path| - 1];
      assert IsRoute(init) by {
        forall i | 0 < i < |init| ensures init[i] in Successors(init[i - 1]) {
          assert init[i] == path[i] && init[i - 1] == path[i - 1];
        }
      }
      RouteIsPrefix(init);
      var n := |init|;
      var last := path[n];
      assert last in Successors(init[n - 1]);
      assert path == init + [last];
      if init <= Direct && n < 5 {
        assert init[n - 1] == Direct[n - 1];
        assert last == Direct[n];
      } else if init <= Direct && n == 5 {
        assert init[4] == EdService;
        assert init == ViaImaging[..5];
        assert last == Ward || last == ImagingQueue;
      } else if init <= Direct {
        assert init[n - 1] == Direct[n - 1];
        assert n < 7;
        assert last == Direct[n];
      } else {
        assert init <= ViaImaging;
        assert init[n - 1] == ViaImaging[n - 1];
        assert n < 11;
        assert last == ViaImaging[n];
      }
    }
  }

  /** A route from arrival that has reached a terminal node is one of the two paths: it ends
      at discharge after 7 or 11 nodes. */
  lemma CompleteRoute(path: seq<Node>)
    requires path != [] && path[0] == Arrival && IsRoute(path) && Terminal(path[|path| - 1])
    ensures path == Direct || path == ViaImaging
    ensures path[|path| - 1] == Discharge && (|path| == 7 || |path| == 11)
  {
    RouteIsPrefix(path);
    if path <= Direct {
      assert path == Direct[..|path|];
      assert Terminal(Direct[|path| - 1]);
    } else {
      assert path == ViaImaging[..|path|];
      assert Terminal(ViaImaging[|path| - 1]);
    }
  }

  /** The nodes a route from arrival can visit: the triage, ED, imaging and result-review
      chain, the ward and discharge. obs, the operating theatre, the ICU, the elevator and
      transfer out never appear. */
  lemma RouteNodes(path: seq<Node>, i: nat)
    requires path != [] && path[0] == Arrival && IsRoute(path) && i < |path|
    ensures path[i] in {Arrival, TriageQueue, TriageService, EdQueue, EdService, ImagingQueue,
                        ImagingService, ResultReviewQueue, ResultReviewService, Ward, Discharge}
    ensures path[i] !in {Obs, OrQueue, InOr, IcuWait, Icu, TransferOut, ElevatorQueue}
  {
    RouteIsPrefix(path);
    if path <= Direct {
      assert path[i] == Direct[i];
    } else {
      assert path[i] == ViaImaging[i];
    }
  }
}
