/**
  The two schedules `run` lays down before it drains the event list
  (src/lib/simulationEngine.ts): the Poisson arrival rate of each minute of the horizon,
  and the snapshot times every `snapshotInterval` minutes.
 */
module Schedule {
  import opened SimulationTypes
  import opened Random

  /** The simulated horizon: 72 hours, in minutes. */
  const HorizonHours: nat := 72
  const HorizonMinutes: nat := HorizonHours * 60

  /** The demand multiplier for minute `time`: k1 in the first six hours, k2 for the rest of
      the first day, k3 after it. */
  function Multiplier(c: Config, time: real): real {
    var hour := time / 60.0;
    if hour < 6.0 then c.k1 else if hour < 24.0 then c.k2 else c.k3
  }

  /** The hour buckets, in minutes. */
  lemma MultiplierBuckets(c: Config, time: real)
    ensures time < 360.0 ==> Multiplier(c, time) == c.k1
    ensures 360.0 <= time < 1440.0 ==> Multiplier(c, time) == c.k2
    ensures 1440.0 <= time ==> Multiplier(c, time) == c.k3
  {
  }

  /** The Poisson mean of arrivals in minute `time`: the daily baseline spread over 24 hours,
      scaled by the multiplier. */
  function ArrivalRate(c: Config, time: real): real {
    Scale(c.baselineEDDaily / 24.0, Multiplier(c, time))
  }

  /** The rate of whole minute `t`, the only times `run` draws arrivals for. */
  function MinuteRate(c: Config, t: nat): real {
    ArrivalRate(c, t as real)
  }

  /** The number of snapshots: the times 0, iv, 2 iv, ... up to the horizon. */
  function SnapshotCount(iv: real): nat
    requires iv > 0.0
  {
    (HorizonMinutes as real / iv).Floor + 1
  }

  /** The time of the `k`-th snapshot (counting from 0); exact, so the floating-point error
      the source accumulates by repeated addition is not modelled. */
  function SnapshotTime(k: nat, iv: real): real {
    Scale(k as real, iv)
  }

  /** The times `run` schedules snapshots at, in order. */
  function SnapshotSchedule(iv: real): seq<real>
    requires iv > 0.0
  {
    seq(SnapshotCount(iv), k requires 0 <= k < SnapshotCount(iv) => SnapshotTime(k, iv))
  }

  /** One more interval. */
  lemma SnapshotTimeStep(k: nat, iv: real)
    ensures SnapshotTime(k + 1, iv) == SnapshotTime(k, iv) + iv
  {
  }

  lemma ScaleSign(x: real, y: real)
    requires y > 0.0
    ensures x * y <= 0.0 <==> x <= 0.0
  {
    if x > 0.0 {
      MulPos(x, y);
    } else if x < 0.0 {
      MulPos(-x, y);
    }
  }

  /** The `k`-th snapshot time lies within the horizon exactly when `k` is below the count. */
  lemma SnapshotTimeInHorizon(k: nat, iv: real)
    requires iv > 0.0
    ensures SnapshotTime(k, iv) <= HorizonMinutes as real <==> k < SnapshotCount(iv)
  {
    var q := HorizonMinutes as real / iv;
    assert q * iv == HorizonMinutes as real;
    var d := k as real - q;
    ScaleSign(d, iv);
    assert d * iv == SnapshotTime(k, iv) - HorizonMinutes as real;
  }

  /** Snapshot times strictly increase with their index. */
  lemma SnapshotTimeIncreasing(j: nat, k: nat, iv: real)
    requires iv > 0.0 && j < k
    ensures SnapshotTime(j, iv) < SnapshotTime(k, iv)
  {
    MulPos((k - j) as real, iv);
    assert ((k - j) as real) * iv == SnapshotTime(k, iv) - SnapshotTime(j, iv);
  }
}
