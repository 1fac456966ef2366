/**
  The event list of src/lib/simulationEngine.ts. The source stores closures; here an event
  is a time and a tag saying what the closure does. `scheduleEvent` pushes and then sorts
  stably by time; on a list that is already sorted this is the same as inserting the new
  event after the last entry whose time is at most its own, which is what `Insert` does.
 */
module Events {
  import opened SimulationTypes
  import opened Routing

  /** What an event does when it runs: create a patient and route them, take the next
      routing step of patient `patient`, bring staff agent `agent` on duty, or record a
      snapshot taken at time `t`. */
  datatype EventKind =
    | PatientArrival
    | PatientStep(patient: nat)
    | StaffArrival(agent: nat)
    | SnapshotAt(t: real)

  datatype Event = Event(time: real, kind: EventKind)

  /** Times ascend along the list. */
  predicate Sorted(q: seq<Event>) {
    forall i, j {:trigger TimeLe(q[i], q[j])} :: 0 <= i < j < |q| ==> TimeLe(q[i], q[j])
  }

  /** `a` is no later than `b`. */
  predicate TimeLe(a: Event, b: Event) {
    a.time <= b.time
  }

  /** In a sorted list no entry is earlier than the first or later than the last. */
  lemma SortedEnds(q: seq<Event>)
    ensures Sorted(q) ==> forall i :: 0 <= i < |q| ==> q[0].time <= q[i].time <= q[|q| - 1].time
  {
    if Sorted(q) {
      forall i | 0 <= i < |q| ensures q[0].time <= q[i].time <= q[|q| - 1].time {
        assert i == 0 || TimeLe(q[0], q[i]);
        assert i == |q| - 1 || TimeLe(q[i], q[|q| - 1]);
      }
    }
  }

  /** Where a new entry at time `t` goes: after the last entry no later than `t`. Every entry
      from that point on is later than `t`; on a sorted list every entry before it is no
      later than `t`. */
  function InsertionPoint(q: seq<Event>, t: real): (k: nat)
    ensures k <= |q|
    ensures forall i :: k <= i < |q| ==> q[i].time > t
    ensures Sorted(q) ==> forall i :: 0 <= i < k ==> q[i].time <= t
  {
    SortedEnds(q);
    if q == [] || q[|q| - 1].time <= t then |q| else InsertionPoint(q[..|q| - 1], t)
  }

  /** The list after scheduling `e`. */
  function Insert(q: seq<Event>, e: Event): seq<Event> {
    var k := InsertionPoint(q, e.time);
    q[..k] + [e] + q[k..]
  }

  /** `Insert(q, e)` puts `e` between the two parts of `q` that `InsertionPoint` separates. */
  lemma InsertSplit(q: seq<Event>, e: Event) returns (a: seq<Event>, b: seq<Event>)
    ensures q == a + b && Insert(q, e) == a + [e] + b
    ensures forall i :: 0 <= i < |b| ==> b[i].time > e.time
    ensures Sorted(q) ==> forall i :: 0 <= i < |a| ==> a[i].time <= e.time
  {
    var k := InsertionPoint(q, e.time);
    a, b := q[..k], q[k..];
    assert q == a + b;
    assert forall i :: 0 <= i < |b| ==> b[i] == q[k + i];
  }

  /** Inserting keeps the list sorted, adds exactly `e`, and puts `e` after every entry that
      is no later than it and before every entry that is later. */
  lemma InsertFacts(q: seq<Event>, e: Event)
    requires Sorted(q)
    ensures Sorted(Insert(q, e))
    ensures multiset(Insert(q, e)) == multiset(q) + multiset{e}
    ensures |Insert(q, e)| == |q| + 1
    ensures forall i :: 0 <= i < |q| && q[i].time <= e.time ==> Insert(q, e)[i] == q[i]
    ensures forall i :: 0 <= i < |q| && q[i].time > e.time ==> Insert(q, e)[i + 1] == q[i]
  {
    var k := InsertionPoint(q, e.time);
    var r := Insert(q, e);
    assert q == q[..k] + q[k..];
    assert r[k] == e;
    assert forall i :: 0 <= i < k ==> r[i] == q[i];
    assert forall i :: k <= i < |q| ==> r[i + 1] == q[i];
    forall i, j | 0 <= i < j < |r| ensures TimeLe(r[i], r[j]) {
      if j < k {
        assert TimeLe(q[i], q[j]);
      } else if k < i {
        assert r[i] == q[i - 1] && r[j] == q[j - 1] && TimeLe(q[i - 1], q[j - 1]);
      } else if k < j {
        assert r[j] == q[j - 1];
      }
    }
  }

  /** The entries of the list after scheduling `e` are those before it and `e`. */
  lemma InsertMembers(q: seq<Event>, e: Event)
    ensures forall x :: x in Insert(q, e) <==> x in q || x == e
  {
    var a, b := InsertSplit(q, e);
  }

  /** The entries of `s` at time `t`, in order. */
  function AtTime(s: seq<Event>, t: real): seq<Event> {
    if s == [] then []
    else AtTime(s[..|s| - 1], t) + (if s[|s| - 1].time == t then [s[|s| - 1]] else [])
  }

  lemma {:induction false} AtTimeConcat(a: seq<Event>, b: seq<Event>, t: real)
    ensures AtTime(a + b, t) == AtTime(a, t) + AtTime(b, t)
  {
    if b != [] {
      assert (a + b)[..|a + b| - 1] == a + b[..|b| - 1];
      AtTimeConcat(a, b[..|b| - 1], t);
    } else {
      assert a + b == a;
    }
  }

  /** No entry of `s` is at time `t` exactly when `AtTime(s, t)` is empty. */
  lemma {:induction false} AtTimeEmpty(s: seq<Event>, t: real)
    ensures AtTime(s, t) == [] <==> forall i :: 0 <= i < |s| ==> s[i].time != t
  {
    if s != [] {
      var p := s[..|s| - 1];
      AtTimeEmpty(p, t);
      assert forall i :: 0 <= i < |p| ==> p[i] == s[i];
    }
  }

  /** Moving `e` from the end of `a + b + [e]` to between `a` and `b` changes no time's
      entries, provided no entry of `b` shares `e`'s time. */
  lemma AtTimeMove(a: seq<Event>, b: seq<Event>, e: Event, t: real)
    requires forall i :: 0 <= i < |b| ==> b[i].time != e.time
    ensures AtTime(a + [e] + b, t) == AtTime(a + b + [e], t)
  {
    AtTimeConcat(a + [e], b, t);
    AtTimeConcat(a, [e], t);
    AtTimeConcat(a + b, [e], t);
    AtTimeConcat(a, b, t);
    assert [e][..0] == [];
    if t == e.time {
      AtTimeEmpty(b, t);
    }
  }

  /** At every time, `Insert(q, e)` holds the same entries in the same order as the list
      with `e` pushed at the end, which is what a stable sort by time keeps. */
  lemma InsertIsStableSort(q: seq<Event>, e: Event, t: real)
    ensures AtTime(Insert(q, e), t) == AtTime(q + [e], t)
  {
    var a, b := InsertSplit(q, e);
    AtTimeMove(a, b, e, t);
  }

  /** Two sorted lists that agree at every time are equal: a stable sort has one answer. */
  lemma {:induction false} StableSortUnique(r1: seq<Event>, r2: seq<Event>)
    requires Sorted(r1) && Sorted(r2)
    requires forall t :: AtTime(r1, t) == AtTime(r2, t)
    ensures r1 == r2
    decreases |r1| + |r2|
  {
    if r1 == [] || r2 == [] {
      if r1 != [] {
        var t := r1[|r1| - 1].time;
        AtTimeEmpty(r1, t);
        AtTimeEmpty(r2, t);
      } else if r2 != [] {
        var t := r2[|r2| - 1].time;
        AtTimeEmpty(r1, t);
        AtTimeEmpty(r2, t);
      }
    } else {
      var n1, n2 := |r1| - 1, |r2| - 1;
      var t1, t2 := r1[n1].time, r2[n2].time;
      AtTimeEmpty(r1, t1);
      AtTimeEmpty(r2, t1);
      AtTimeEmpty(r1, t2);
      AtTimeEmpty(r2, t2);
      SortedEnds(r1);
      SortedEnds(r2);
      assert t1 == t2;
      assert r1[n1] == r2[n2] by {
        assert AtTime(r1, t1)[|AtTime(r1, t1)| - 1] == r1[n1];
        assert AtTime(r2, t1)[|AtTime(r2, t1)| - 1] == r2[n2];
      }
      var p1, p2 := r1[..n1], r2[..n2];
      forall t ensures AtTime(p1, t) == AtTime(p2, t) {
        var x1, x2 := AtTime(r1, t), AtTime(r2, t);
        assert x1 == x2;
        assert x1 == AtTime(p1, t) + (if t == t1 then [r1[n1]] else []);
        assert x2 == AtTime(p2, t) + (if t == t1 then [r2[n2]] else []);
        if t == t1 {
          assert AtTime(p1, t) == x1[..|x1| - 1];
          assert AtTime(p2, t) == x2[..|x2| - 1];
        } else {
          assert x1 == AtTime(p1, t);
          assert x2 == AtTime(p2, t);
        }
      }
      StableSortUnique(p1, p2);
      assert r1 == p1 + [r1[n1]] && r2 == p2 + [r2[n2]];
    }
  }

  /** `r` is what push-then-stable-sort gives exactly when it is `Insert(q, e)`. */
  lemma InsertCharacterised(q: seq<Event>, e: Event, r: seq<Event>)
    requires Sorted(q)
    ensures r == Insert(q, e) ==> Sorted(r) && forall t :: AtTime(r, t) == AtTime(q + [e], t)
    ensures Sorted(r) && (forall t :: AtTime(r, t) == AtTime(q + [e], t)) ==> r == Insert(q, e)
  {
    if r == Insert(q, e) {
      InsertFacts(q, e);
      forall t ensures AtTime(r, t) == AtTime(q + [e], t) {
        InsertIsStableSort(q, e, t);
      }
    }
    if Sorted(r) && forall t :: AtTime(r, t) == AtTime(q + [e], t) {
      InsertSortedAgrees(q, e, r);
    }
  }

  lemma InsertSortedAgrees(q: seq<Event>, e: Event, r: seq<Event>)
    requires Sorted(q) && Sorted(r)
    requires forall t :: AtTime(r, t) == AtTime(q + [e], t)
    ensures r == Insert(q, e)
  {
    var ins := Insert(q, e);
    InsertFacts(q, e);
    forall t ensures AtTime(r, t) == AtTime(ins, t) {
      InsertIsStableSort(q, e, t);
    }
    StableSortUnique(r, ins);
  }

  /** The sum of `f` over the list. */
  function SumBy(q: seq<Event>, f: Event -> nat): nat {
    if q == [] then 0 else SumBy(q[..|q| - 1], f) + f(q[|q| - 1])
  }

  lemma {:induction false} SumByConcat(a: seq<Event>, b: seq<Event>, f: Event -> nat)
    ensures SumBy(a + b, f) == SumBy(a, f) + SumBy(b, f)
  {
    if b != [] {
      assert (a + b)[..|a + b| - 1] == a + b[..|b| - 1];
      SumByConcat(a, b[..|b| - 1], f);
    } else {
      assert a + b == a;
    }
  }

  /** Inserting adds the new event's share to the sum; removing the front removes its share. */
  lemma SumByInsert(q: seq<Event>, e: Event, f: Event -> nat)
    ensures SumBy(Insert(q, e), f) == SumBy(q, f) + f(e)
    ensures q != [] ==> SumBy(q, f) == f(q[0]) + SumBy(q[1..], f)
  {
    var a, b := InsertSplit(q, e);
    SumBySplit(a, b, e, f);
    if q != [] {
      SumByConcat([q[0]], q[1..], f);
      assert [q[0]] + q[1..] == q;
      assert [q[0]][..0] == [];
    }
  }

  lemma SumBySplit(a: seq<Event>, b: seq<Event>, e: Event, f: Event -> nat)
    ensures SumBy(a + [e] + b, f) == SumBy(a + b, f) + f(e)
  {
    SumByConcat(a + [e], b, f);
    SumByConcat(a, [e], f);
    SumByConcat(a, b, f);
    assert [e][..0] == [];
  }

  /** A pointwise smaller share gives a smaller sum. */
  lemma {:induction false} SumByMono(q: seq<Event>, f: Event -> nat, g: Event -> nat)
    requires forall i :: 0 <= i < |q| ==> f(q[i]) <= g(q[i])
    ensures SumBy(q, f) <= SumBy(q, g)
  {
    if q != [] {
      var p := q[..|q| - 1];
      assert forall i :: 0 <= i < |p| ==> p[i] == q[i];
      SumByMono(p, f, g);
    }
  }

  /** Every patient step in the list names one of the first `n` patients. */
  predicate StepsBelow(q: seq<Event>, n: nat) {
    forall i :: 0 <= i < |q| && q[i].kind.PatientStep? ==> q[i].kind.patient < n
  }

  /** The routing steps still ahead of a patient. */
  function PatientWeight(p: Patient): nat {
    if p.discharged then 0 else Rem(p.currentNode)
  }

  /** An upper bound on the events that running `e` can still cause, itself included. */
  function EventWeight(e: Event, ps: seq<Patient>): nat {
    match e.kind
    case PatientArrival => Rem(Arrival) + 1
    case PatientStep(i) => if i < |ps| then PatientWeight(ps[i]) + 1 else 1
    case _ => 1
  }

  /** The measure the drain loop decreases. */
  function Weight(q: seq<Event>, ps: seq<Patient>): nat {
    SumBy(q, e => EventWeight(e, ps))
  }

  /** Scheduling adds the new event's weight; the front entry carries its own weight. */
  lemma WeightInsert(q: seq<Event>, e: Event, ps: seq<Patient>)
    ensures Weight(Insert(q, e), ps) == Weight(q, ps) + EventWeight(e, ps)
    ensures q != [] ==> Weight(q, ps) == EventWeight(q[0], ps) + Weight(q[1..], ps)
  {
    SumByInsert(q, e, x => EventWeight(x, ps));
  }

  /** Patients moving on (or being added) never raise the weight of a list whose patient steps
      name the patients that were already there. */
  lemma WeightMono(q: seq<Event>, ps: seq<Patient>, ps': seq<Patient>)
    requires |ps| <= |ps'| && StepsBelow(q, |ps|)
    requires forall j :: 0 <= j < |ps| ==> PatientWeight(ps'[j]) <= PatientWeight(ps[j])
    ensures Weight(q, ps') <= Weight(q, ps)
  {
    SumByMono(q, e => EventWeight(e, ps'), e => EventWeight(e, ps));
  }

  /** The times of the snapshots still to be taken, in list order. */
  function SnapshotTimes(q: seq<Event>): seq<real> {
    if q == [] then []
    else SnapshotTimes(q[..|q| - 1]) +
         (if q[|q| - 1].kind.SnapshotAt? then [q[|q| - 1].kind.t] else [])
  }

  lemma {:induction false} SnapshotTimesConcat(a: seq<Event>, b: seq<Event>)
    ensures SnapshotTimes(a + b) == SnapshotTimes(a) + SnapshotTimes(b)
  {
    if b != [] {
      assert (a + b)[..|a + b| - 1] == a + b[..|b| - 1];
      SnapshotTimesConcat(a, b[..|b| - 1]);
    } else {
      assert a + b == a;
    }
  }

  lemma {:induction false} SnapshotTimesNone(q: seq<Event>)
    requires forall i :: 0 <= i < |q| ==> !q[i].kind.SnapshotAt?
    ensures SnapshotTimes(q) == []
  {
    if q != [] {
      assert forall i :: 0 <= i < |q| - 1 ==> q[..|q| - 1][i] == q[i];
      SnapshotTimesNone(q[..|q| - 1]);
    }
  }

  /** Scheduling an event that is not a snapshot leaves the pending snapshot times alone. */
  lemma SnapshotTimesInsertOther(q: seq<Event>, e: Event)
    requires !e.kind.SnapshotAt?
    ensures SnapshotTimes(Insert(q, e)) == SnapshotTimes(q)
  {
    var a, b := InsertSplit(q, e);
    SnapshotTimesSplit(a, b, e);
  }

  /** Scheduling a snapshot no earlier than every pending one appends its time. */
  lemma SnapshotTimesInsertLast(q: seq<Event>, e: Event)
    requires e.kind.SnapshotAt?
    requires forall i :: 0 <= i < |q| && q[i].kind.SnapshotAt? ==> q[i].time <= e.time
    ensures SnapshotTimes(Insert(q, e)) == SnapshotTimes(q) + [e.kind.t]
  {
    var a, b := InsertSplit(q, e);
    forall i | 0 <= i < |b| ensures !b[i].kind.SnapshotAt? {
      assert b[i] == q[|a| + i];
    }
    SnapshotTimesSplit(a, b, e);
    SnapshotTimesNone(b);
    var sa := SnapshotTimes(a);
    assert SnapshotTimes(q) == sa + [];
    assert SnapshotTimes(Insert(q, e)) == sa + [e.kind.t] + [];
    assert sa + [] == sa;
    assert sa + [e.kind.t] + [] == sa + [e.kind.t];
  }

  /** Removing the front entry removes its time if it is a snapshot. */
  lemma SnapshotTimesFront(q: seq<Event>)
    requires q != []
    ensures SnapshotTimes(q) == (if q[0].kind.SnapshotAt? then [q[0].kind.t] else []) + SnapshotTimes(q[1..])
  {
    SnapshotTimesConcat([q[0]], q[1..]);
    assert [q[0]] + q[1..] == q;
    assert [q[0]][..0] == [];
  }

  lemma SnapshotTimesSplit(a: seq<Event>, b: seq<Event>, e: Event)
    ensures SnapshotTimes(a + [e] + b) == SnapshotTimes(a) + SnapshotTimes([e]) + SnapshotTimes(b)
    ensures SnapshotTimes(a + b) == SnapshotTimes(a) + SnapshotTimes(b)
    ensures SnapshotTimes([e]) == if e.kind.SnapshotAt? then [e.kind.t] else []
  {
    SnapshotTimesConcat(a + [e], b);
    SnapshotTimesConcat(a, [e]);
    SnapshotTimesConcat(a, b);
    assert [e][..0] == [];
  }

  /** The kinds of the entries of the list. */
  function KindsOf(q: seq<Event>): set<EventKind> {
    if q == [] then {} else {q[0].kind} + KindsOf(q[1..])
  }

  lemma {:induction false} KindsConcat(a: seq<Event>, b: seq<Event>)
    ensures KindsOf(a + b) == KindsOf(a) + KindsOf(b)
  {
    if a != [] {
      assert (a + b)[1..] == a[1..] + b;
      KindsConcat(a[1..], b);
    } else {
      assert a + b == b;
    }
  }

  /** Scheduling adds the new kind to the pending kinds. */
  lemma KindsInsert(q: seq<Event>, e: Event)
    ensures KindsOf(Insert(q, e)) == KindsOf(q) + {e.kind}
  {
    var a, b := InsertSplit(q, e);
    KindsConcat(a + [e], b);
    KindsConcat(a, [e]);
    KindsConcat(a, b);
    assert [e][1..] == [];
  }

  /** No entry of the list is earlier than `t`. */
  predicate NotBefore(q: seq<Event>, t: real) {
    forall x :: x in q ==> x.time >= t
  }

  /** Scheduling an entry no earlier than `t` keeps every entry no earlier than `t`. */
  lemma NotBeforeInsert(q: seq<Event>, e: Event, t: real)
    requires NotBefore(q, t) && e.time >= t
    ensures NotBefore(Insert(q, e), t)
  {
    InsertMembers(q, e);
  }

  /** Among entries at the same time, every patient arrival comes before every snapshot. */
  predicate ArrivalsFirst(q: seq<Event>) {
    forall i, j ::
      (0 <= i < |q| && 0 <= j < |q| && q[i].kind.PatientArrival? && q[j].kind.SnapshotAt? && q[i].time == q[j].time)
      ==> i < j
  }

  /** Scheduling anything but an arrival keeps arrivals ahead of snapshots at the same time:
      a new snapshot goes after every entry at its own time. */
  lemma ArrivalsFirstInsert(q: seq<Event>, e: Event)
    requires ArrivalsFirst(q) && !e.kind.PatientArrival?
    ensures ArrivalsFirst(Insert(q, e))
  {
    var k := InsertionPoint(q, e.time);
    var r := Insert(q, e);
    assert forall i :: 0 <= i < k ==> r[i] == q[i];
    assert r[k] == e;
    assert forall i :: k < i < |r| ==> r[i] == q[i - 1];
    forall i, j | 0 <= i < |r| && 0 <= j < |r| && r[i].kind.PatientArrival? && r[j].kind.SnapshotAt? &&
                  r[i].time == r[j].time
      ensures i < j
    {
      var i' := if i < k then i else i - 1;
      if j == k {
        assert i < k;
      } else {
        var j' := if j < k then j else j - 1;
        assert q[i'].kind.PatientArrival? && q[j'].kind.SnapshotAt? && q[i'].time == q[j'].time;
      }
    }
  }

  /** 1 for an event that will create a patient. */
  function ArrivalShare(e: Event): nat {
    if e.kind.PatientArrival? then 1 else 0
  }
}
