# Mass-casualty hospital flow simulation: a Dafny model of the engine

This project models the core of a hospital surge simulator: the seeded pseudo-random
generator `SeededRandom` (`src/lib/random.ts`) and the discrete-event engine
`SimulationEngine` (`src/lib/simulationEngine.ts`), with the record shapes of
`src/types/simulation.ts`. It proves properties of that model.

The generator and the engine are both imperative, so both are Dafny classes.

- **`Random.SeededRandom`** holds one `seed` field, which `Random` advances by the linear
  congruential step `seed := (seed * 9301 + 49297) % 233280`.
- **The samplers** are `Uniform`, `Triangular`, `Lognormal` and `Poisson`. Each is a method
  whose result and new seed are tied to the draws `Draw(seed, j)` made from the seed it
  started with.
- **`Engine.SimulationEngine`** keeps the source's mutable fields:
  - the clock, the patient list, the staff roster and the event list
  - the capacity dictionary, the per-node queues and wait histories
  - the death log, the snapshots and the patient id counter

  Its methods follow the source's methods: setup, scheduling, staff arrival, patient
  generation, routing, the mortality check, snapshots and the run loop.

The source stores events as closures. Here they are a tagged datatype:
`PatientArrival`, `PatientStep(i)`, `StaffArrival(k)` and `SnapshotAt(t)`.

- **Scheduling.** `scheduleEvent` pushes an event and then stable-sorts by time. The model
  inserts the event after the last entry whose time is at most the new one (`Events.Insert`).
  `Events.InsertCharacterised` proves the two agree: a sorted list that keeps, at every time,
  the order of `q + [e]` is exactly `Insert(q, e)`.
- **Identity.** Patients and agents are named by their index in the engine's sequences, so
  the source's object identity becomes an index.
- **Floating point.** `Math.exp`, `log`, `sqrt`, `cos` and `PI` are a record of functions
  (`Random.RealMath`) passed to the engine. Of it the model assumes only that `exp` is
  positive, `sqrt` is the non-negative square root and `pi` is positive.

The model preserves these behaviours of the source rather than correcting them:

- `checkMortality` is never called by the engine, so the model has it as a method of its own.
- The queues and wait histories are created and never filled. Every snapshot therefore shows
  queue length 0, utilization 0, p95 wait 0 and colour green at every node (`Engine.IdleReportAll`).
- The capacity keys and the node names mostly differ. Only `obs`, `icu` and `ward` are both.
  Every other node's utilization divides by the fallback 1 (`Metrics.SharedNames`,
  `Engine.SharedCapacities`).
- Patient arrivals are scheduled before the snapshots. Under the stable sort, every arrival
  of a minute precedes the snapshot at that minute (`Engine.SimulationEngine.ScheduleSnapshots`).

Proved about a whole run (`Engine.SimulationEngine.Run`):

- The arrival counts are the Poisson draws of the 4320 minutes, each minute drawing from the
  seed the previous one left, and the event list gains exactly `counts[t]` arrivals at minute t.
- When the run completes, the event list is empty and there is one patient per counted arrival.
- Every patient is discharged along one of the two complete paths, of 7 or 11 nodes.
- Exactly the agents with an arrival time are on duty at the end; every other agent is as setup
  left them. Each arriving ED doctor adds one ED place and each arriving ED nurse one triage
  place; by day the capacities end as they started (`Engine.ArrivedDaytime`).
- Exactly `floor(4320 / snapshotInterval) + 1` idle snapshots were taken, at the times
  `0, iv, 2 iv, ...`. Their patient totals never decrease and are at most the final count.

Each event's effect on the patients, the roster, the capacities, the list and the seed is stated
exactly (`Engine.SimulationEngine.RunEvent`, `Engine.SimulationEngine.Step`). The roster is
stated agent by agent, with the draws each agent was made from (`Engine.RosterSlot`).

During the drain the clock never goes back, because no event is ever scheduled before the
current time (`Engine.SimulationEngine.Step`, `Engine.SimulationEngine.Drain`).

The drain terminates because of a weight measure. It counts, for every pending event, the
routing steps it can still cause.

## Model

| member | source | states |
|---|---|---|
| Random.Next | src/lib/random.ts:10 | the recurrence's new seed lies in [0, 233280) |
| Random.Unit | src/lib/random.ts:11 | the value returned for a seed below the modulus lies in [0, 1) and is at most 233279/233280 |
| Random.AdvanceAdd | src/lib/random.ts:9-12 | advancing the seed a steps and then b steps is advancing it a + b steps, so draw counts of consecutive calls add up |
| Random.Draw | src/lib/random.ts:9-12 | every draw of the generator lies in [0, 233279/233280] |
| Random.SeededRandom.constructor | src/lib/random.ts:5-7 | the generator's only state is the seed it was built with |
| Random.SeededRandom.Random | src/lib/random.ts:9-12 | the seed becomes the next seed of the recurrence and the result is the new seed over 233280, in [0, 1) |
| Random.UniformValue | src/lib/random.ts:57 | for a draw in [0, 1) and min < max the value lies in [min, max) |
| Random.SeededRandom.Uniform | src/lib/random.ts:56-58 | consumes exactly one draw; the result is `min + (max - min) * u` for that draw and lies in [min, max) when min < max |
| Random.TriangularLowerBranch | src/lib/random.ts:44-45 | on the first branch of a triangle with min <= mode <= max and min < max the result lies in [min, mode) |
| Random.TriangularUpperBranch | src/lib/random.ts:46-47 | on the second branch the result lies in [mode, max] |
| Random.TriangularBounds | src/lib/random.ts:42-49 | for a well-formed triangle the result lies in [min, max], and the first branch is taken exactly when the result is below the mode; when min == max the result is min |
| Random.SeededRandom.Triangular | src/lib/random.ts:42-49 | consumes exactly one draw; the result is the inverse-CDF value of that draw and lies in [min, max] for a well-formed triangle |
| Random.LognormalPositive | src/lib/random.ts:53 | a log-normal sample is positive |
| Random.SeededRandom.Lognormal | src/lib/random.ts:51-54 | consumes exactly two draws, the first for the log term and the second for the cosine term, and returns a positive value |
| Random.ProductStep | src/lib/random.ts:21 | one pass of the small-rate loop multiplies the running product by the next draw |
| Random.InverseProgress | src/lib/random.ts:19-22 | while the running product is above exp(-lambda), one more draw strictly lowers a non-negative measure, so the small-rate loop ends |
| Random.InverseCountUnique | src/lib/random.ts:19-23 | at most one count is the first at which the running product falls to exp(-lambda) or below |
| Random.SeededRandom.PoissonInverse | src/lib/random.ts:15-23 | returns the count n such that n + 1 is the first number of draws whose product is at most exp(-lambda); exactly n + 1 draws are consumed |
| Random.Params | src/lib/random.ts:25-28 | for lambda >= 30 the rejection method's beta is positive |
| Random.ProposeAbove | src/lib/random.ts:31-34 | a proposal the inner loop accepts is above -0.5 |
| Random.RejectNonNegative | src/lib/random.ts:30-38 | every count the rejection method accepts, `floor(x + 0.5)`, is non-negative |
| Random.SeededRandom.PoissonRejection | src/lib/random.ts:24-39 | the result and the seed left are those of the rejection loops run from the starting seed, with None when they would not end |
| Random.SeededRandom.Poisson | src/lib/random.ts:14-40 | the inverse-transform branch is taken exactly when lambda < 30 and always gives a count; the rejection branch is taken exactly when lambda >= 30; every count returned is non-negative |
| Random.SeededRandom.Sample | src/lib/random.ts:9-58 | one call of any sampling method gives the result and the new seed described by the call and the starting seed |
| Random.SampledIsDeterministic | src/lib/random.ts:3-12 | a call's result and the seed it leaves are fixed by the seed it starts from |
| Random.SameSeedSameSamples | src/lib/random.ts:3-12 | two generators built with the same seed return identical results for the same sequence of calls |
| SimulationTypes.AllNodesOnce | src/lib/simulationEngine.ts:91 | the node list names every node exactly once |
| SimulationTypes.AllNodesListed | src/lib/simulationEngine.ts:91 | every node is in the node list, so every node gets a queue and a wait history |
| SimulationTypes.StaffRolesOnce | src/lib/simulationEngine.ts:19 | the roster order names every role exactly once |
| SimulationTypes.ArrivalParams | src/lib/simulationEngine.ts:21-30 | every role's travel-time triangle has 0 < min < mode < max |
| Routing.SuccessorFacts | src/lib/simulationEngine.ts:150-167 | only `ed_service` depends on the draw; there is no next node exactly at a terminal node; the next node is one of the node's successors |
| Routing.SuccessorDecreases | src/lib/simulationEngine.ts:150-167 | every routing step lowers the number of steps left, so no patient routes forever |
| Routing.RouteExtend | src/lib/simulationEngine.ts:142-143 | appending the next node to a route gives a route |
| Routing.RouteIsPrefix | src/lib/simulationEngine.ts:150-167 | every route from `arrival` is a prefix of the direct path or of the imaging path |
| Routing.CompleteRoute | src/lib/simulationEngine.ts:150-167 | a route from `arrival` that stops is one of the two paths, ends at `discharge` and has 7 or 11 nodes |
| Routing.RouteNodes | src/lib/simulationEngine.ts:150-167 | a route from `arrival` stays within the triage, ED, imaging and result-review chain, `ward` and `discharge`, and never reaches `obs`, the OR, the ICU, transfer or the elevator |
| Schedule.MultiplierBuckets | src/lib/simulationEngine.ts:250-254 | the multiplier is k1 before minute 360, k2 from 360 to before 1440, and k3 from 1440 on |
| Schedule.SnapshotTimeInHorizon | src/lib/simulationEngine.ts:232 | the k-th snapshot time is within the 4320-minute horizon exactly when k < floor(4320 / interval) + 1 |
| Schedule.SnapshotTimeIncreasing | src/lib/simulationEngine.ts:232 | snapshot times strictly increase with their index |
| Events.InsertionPoint | src/lib/simulationEngine.ts:98-101 | entries after the insertion point are later than the new time; in a sorted list the ones before it are no later |
| Events.InsertFacts | src/lib/simulationEngine.ts:98-101 | scheduling keeps the list sorted, adds exactly the new event, and moves no other entry out of its order |
| Events.InsertMembers | src/lib/simulationEngine.ts:99 | the entries after scheduling are the old ones and the new one |
| Events.InsertIsStableSort | src/lib/simulationEngine.ts:100 | at every time, the entries at that time keep the order they had after the push |
| Events.StableSortUnique | src/lib/simulationEngine.ts:100 | two sorted lists that agree at every time are equal, so the stable sort has one result |
| Events.InsertCharacterised | src/lib/simulationEngine.ts:98-101 | a list is the result of push-then-stable-sort exactly when it is the insertion after the last entry no later than the new one |
| Events.WeightInsert | src/lib/simulationEngine.ts:240-244 | scheduling adds the new event's weight to the drain measure; the front entry carries its own weight |
| Events.WeightMono | src/lib/simulationEngine.ts:240-244 | patients moving on cannot raise the drain measure of the pending events |
| Events.SnapshotTimesInsertOther | src/lib/simulationEngine.ts:98-101 | scheduling an event that is not a snapshot leaves the pending snapshot times alone |
| Events.SnapshotTimesInsertLast | src/lib/simulationEngine.ts:233 | scheduling a snapshot no earlier than every pending one appends its time to the pending snapshot times |
| Events.SnapshotTimesFront | src/lib/simulationEngine.ts:241 | taking the front entry off removes its time from the pending snapshot times if it is a snapshot |
| Events.KindsInsert | src/lib/simulationEngine.ts:99 | scheduling adds the new event's kind to the pending kinds |
| Events.NotBeforeInsert | src/lib/simulationEngine.ts:98-101 | scheduling an event no earlier than t keeps every entry no earlier than t |
| Events.ArrivalsFirstInsert | src/lib/simulationEngine.ts:98-101 | scheduling anything but a patient arrival keeps every arrival ahead of every snapshot at the same time |
| Metrics.ResourceKeysDistinct | src/lib/simulationEngine.ts:55-67 | no two resources share a key |
| Metrics.SharedNames | src/lib/simulationEngine.ts:55-91 | a capacity key equals a node name exactly for `obs`, `icu` and `ward` |
| Metrics.Capacity | src/lib/simulationEngine.ts:188 | the divisor is never 0, and it is 1 for a node without a capacity |
| Metrics.Utilization | src/lib/simulationEngine.ts:188 | an empty queue has utilization 0, and utilization is non-negative for a positive capacity |
| Metrics.ColourMonotone | src/lib/simulationEngine.ts:192-194 | the colour does not improve as utilization or p95 wait grow; it is green up to utilization 0.85 and never red up to p95 wait 10 |
| Metrics.SortAscending | src/lib/simulationEngine.ts:190 | sorting the waits gives an ascending permutation of them |
| Metrics.AscendingUnique | src/lib/simulationEngine.ts:190 | there is one ascending permutation, so any correct sort of the waits gives the same list |
| Metrics.P95Index | src/lib/simulationEngine.ts:190 | the p95 index `floor(0.95 n)` lies below n, so it is in bounds |
| Metrics.P95Facts | src/lib/simulationEngine.ts:190 | the p95 wait is 0 without waits; otherwise it is one of the waits, no smaller than the sorted waits before its index and no larger than those after it |
| Metrics.P95Example | src/lib/simulationEngine.ts:190 | the waits 5, 100, 10, 15, 10 have p95 index 4 and p95 wait 100 |
| Metrics.TallyPartition | src/lib/simulationEngine.ts:191 | when every key is counted once, the per-key counts add up to the number of keyed entries |
| Metrics.DeathsAddUp | src/lib/simulationEngine.ts:191 | the per-node death counts of a snapshot add up to the length of the death log |
| Metrics.ActiveStaffAddsUp | src/lib/simulationEngine.ts:206-214 | the per-role staff counts add up to the number of agents on duty |
| Metrics.IdleNode | src/lib/simulationEngine.ts:187-195 | a node with an empty queue and no waits reports length 0, utilization 0, p95 wait 0, its deaths and green |
| Engine.SeverityMonotone | src/lib/simulationEngine.ts:115-119 | the severity class is monotone in the score; Minor exactly below 0.25 and Critical exactly from 0.75 |
| Engine.InjuryIndex | src/lib/simulationEngine.ts:113 | for a draw in [0, 1) the injury index lies in 0..6 |
| Engine.InjuryBands | src/lib/simulationEngine.ts:113 | the injury index is k exactly when k <= 7u < k + 1 |
| Engine.NewPatient | src/lib/simulationEngine.ts:121-132 | a new patient is well formed for its id, at `arrival`, not discharged, with the drawn injury and score and the current time as arrival and queue-entry time |
| Engine.MovedOk | src/lib/simulationEngine.ts:140-147 | a flow step keeps the patient record well formed; a move means the patient was not discharged and has fewer steps left |
| Engine.InitialResourcesKeys | src/lib/simulationEngine.ts:55-67 | every resource has a capacity in both scenarios |
| Engine.InitialResourcesFacts | src/lib/simulationEngine.ts:54-68 | every capacity is positive; at night triage and ED are smaller and every other capacity is the base one |
| Engine.SharedCapacities | src/lib/simulationEngine.ts:188 | the utilization divisor is 20 at `obs`, 44 at `icu`, 256 at `ward` and 1 at every other node |
| Engine.StaffCapacityFacts | src/lib/simulationEngine.ts:103-109 | a staff arrival adds 1 to `ed` for an ED doctor and 1 to `triage` for an ED nurse, and changes no other capacity or key |
| Engine.PlanLength | src/lib/simulationEngine.ts:71-73 | the roster plan has the per-role count of entries for every role |
| Engine.PlanEntry | src/lib/simulationEngine.ts:71-73 | agent i of the r-th role is at position r * count + i of the roster |
| Engine.RosterSlot | src/lib/simulationEngine.ts:70-88 | the roster has 80 agents by day and 16 by night; agent ii of the ri-th role is at position ri * count + ii, with that role and number, on duty by day and at home at night, with show probability `uniform(0.85, 0.95)` of the first draw from the seed the agents before it leave; at night it has an arrival time exactly when the second draw is below that probability, and the time is the role's triangular value of the third draw |
| Engine.SlotSnoc | src/lib/simulationEngine.ts:85 | appending an agent to the roster leaves every earlier agent's draws and seed as they were |
| Engine.MatchesSnoc | src/lib/simulationEngine.ts:74-85 | an agent drawn from the seed the roster so far leaves, appended, extends the roster by its plan entry |
| Engine.RosterDrawTotal | src/lib/simulationEngine.ts:78-82 | building the roster consumes one draw per agent by day and two by night, plus one for each agent who shows up |
| Engine.ArrivalKinds | src/lib/simulationEngine.ts:80-84 | an agent has a staff-arrival event exactly when they have an arrival time |
| Engine.StaffQueueFacts | src/lib/simulationEngine.ts:83 | the staff events add exactly one arrival per agent who shows up, no snapshot, and keep the list well formed |
| Engine.StaffQueueLength | src/lib/simulationEngine.ts:83 | each agent with an arrival time adds exactly one entry to the list |
| Engine.StaffQueueNotBefore | src/lib/simulationEngine.ts:83 | staff arrivals whose travel times are t or later are no earlier than t |
| Engine.StaffQueueMembers | src/lib/simulationEngine.ts:83 | the staff events add nothing but staff arrivals and no patient arrival |
| Engine.StaffQueueShare | src/lib/simulationEngine.ts:80-84 | the staff events hold one arrival for an agent exactly when it is among those scheduled and has an arrival time, and none otherwise |
| Engine.RosterPending | src/lib/simulationEngine.ts:70-88 | after setup every agent with an arrival time is at home and has exactly one staff-arrival event, and every other agent has none |
| Engine.RosterTimesPositive | src/lib/simulationEngine.ts:82 | every travel time of the roster is positive |
| Engine.ShownNone | src/lib/simulationEngine.ts:77-80 | in the day scenario no agent gets an arrival time |
| Engine.RosterEvents | src/lib/simulationEngine.ts:70-88 | after setup the list holds one staff arrival per agent who shows up, none before time 0, and is empty in the day scenario |
| Engine.QueueOkInsert | src/lib/simulationEngine.ts:98-101 | scheduling a well-formed event keeps the event list well formed |
| Engine.FreshQueue | src/lib/simulationEngine.ts:46-52 | after construction the list is well formed, has no entry before time 0, and holds an event for every agent with an arrival time |
| Engine.QueueOkFront | src/lib/simulationEngine.ts:241 | taking the front entry off keeps the list well formed, and no remaining entry is earlier than it |
| Engine.StepFacts | src/lib/simulationEngine.ts:140-147 | a flow step keeps the pending kinds, schedules the patient's next step unless they are discharged, and schedules no arrival or snapshot |
| Engine.StepNotBefore | src/lib/simulationEngine.ts:144 | a next step scheduled at `time + uniform(10, 60)` is no earlier than the current time |
| Engine.AwaitingNone | src/lib/simulationEngine.ts:240-246 | once no event is left, every patient is discharged along a complete path and every agent with an arrival time is on duty |
| Engine.FrontStep | src/lib/simulationEngine.ts:241 | taking the front entry off leaves a well-formed list no earlier than it, in which everyone waiting still has an event but the front one's, and the front entry's weight and arrival share leave the sums |
| Engine.RoutedBy | src/lib/simulationEngine.ts:135-148 | the routing decision followed by the move and one draw for the next step is one `processPatientFlow` call |
| Engine.AdmittedStep | src/lib/simulationEngine.ts:222-226 | a new patient with the first two draws, then routed once, is what the arrival closure produces: moved to `triage_queue` with a step drawn by the third draw |
| Engine.RanGrows | src/lib/simulationEngine.ts:240-244 | running an event never removes a patient |
| Engine.TakenStep | src/lib/simulationEngine.ts:240-244 | running the front event moves a snapshot time from the pending list to the snapshots taken, keeping earlier snapshots and the non-decreasing patient totals |
| Engine.TakenEnd | src/lib/simulationEngine.ts:240-244 | once no event is pending, the snapshots taken are one idle snapshot per time pending at the start, in order |
| Engine.DrainedSchedule | src/lib/simulationEngine.ts:232-244 | draining a list whose snapshot times are the schedule takes floor(4320 / interval) + 1 idle snapshots at the times k * interval |
| Engine.PromotedStep | src/lib/simulationEngine.ts:103-109 | running an event changes the roster only by putting an agent with an arrival time on duty |
| Engine.PromotedEnd | src/lib/simulationEngine.ts:240-244 | once every agent with an arrival time is on duty, the roster is the starting one with exactly those agents on duty |
| Engine.PendingArrival | src/lib/simulationEngine.ts:103-104 | a staff arrival at the front of the list is its agent's only event: the agent has an arrival time and is not on duty, and once on duty owes no event |
| Engine.StaffedCapacity | src/lib/simulationEngine.ts:103-109 | putting an agent who was not on duty on duty adds its role's one place to the counted capacities, as `staffArrives` does |
| Engine.StaffedStep | src/lib/simulationEngine.ts:240-244 | running the front event keeps the capacities equal to the start ones plus one place per ED doctor or ED nurse put on duty since, and every agent still to arrive with exactly one pending event |
| Engine.CalledDue | src/lib/simulationEngine.ts:103-109 | once exactly the agents with an arrival time are on duty, the agents counted as called are exactly those who were due |
| Engine.StaffedEnd | src/lib/simulationEngine.ts:240-244 | once every due agent is on duty, the capacities are the start ones plus one ED place per ED doctor and one triage place per ED nurse who was due |
| Engine.ArrivedDaytime | src/lib/simulationEngine.ts:77-80 | by day no agent is due, so the capacities end as they started |
| Engine.PendingArrivals | src/lib/simulationEngine.ts:219-229 | scheduling the patient arrivals keeps every pending staff arrival exactly once |
| Engine.PendingSnapshots | src/lib/simulationEngine.ts:232-237 | scheduling the snapshots keeps every pending staff arrival exactly once |
| Engine.ArrivalsSoFarStep | src/lib/simulationEngine.ts:221-227 | scheduling one arrival keeps the list well formed and adds only an arrival within the horizon |
| Engine.ArrivalDrawsSnoc | src/lib/simulationEngine.ts:219-228 | one more minute's Poisson call, from the seed the previous minute left, extends the chain of arrival draws |
| Engine.ArrivalEventsSnoc | src/lib/simulationEngine.ts:221-227 | one more minute adds its arrivals, at that minute, after those of earlier minutes, and its count to the total |
| Engine.InsertAllFacts | src/lib/simulationEngine.ts:98-101 | scheduling events one after the other keeps the list sorted and adds exactly those events |
| Engine.InsertAllSum | src/lib/simulationEngine.ts:98-101 | scheduling events one after the other adds their sum to every per-event sum of the list |
| Engine.ArrivalsFacts | src/lib/simulationEngine.ts:221-222 | the n arrivals of a minute are n copies of that minute's arrival event and create n patients |
| Engine.ArrivalEventsSum | src/lib/simulationEngine.ts:219-229 | the arrivals scheduled for the counts number the sum of the counts and create that many patients |
| Engine.ArrivalEventsMembers | src/lib/simulationEngine.ts:219-229 | the arrivals scheduled for the counts of the first n minutes are at whole minutes before minute n |
| Engine.ArrivalEventsCounts | src/lib/simulationEngine.ts:219-229 | the arrivals scheduled hold exactly `counts[t]` events at minute t, for every minute t |
| Engine.InsertAllArrival | src/lib/simulationEngine.ts:221-222 | one more pass of the inner loop schedules one more arrival at its minute |
| Engine.SimulationEngine.ScheduleMinute | src/lib/simulationEngine.ts:221-227 | the inner loop schedules exactly the n arrivals of minute t, one after the other, and keeps the list well formed |
| Engine.SnapshotsSoFarStart | src/lib/simulationEngine.ts:232 | the snapshot loop starts from a list without snapshots |
| Engine.SnapshotMembersStep | src/lib/simulationEngine.ts:232-237 | scheduling the next snapshot keeps the list well formed and adds nothing else |
| Engine.SnapshotTimesStep | src/lib/simulationEngine.ts:232-237 | scheduling the k-th snapshot extends the pending snapshot times to the first k + 1 times of the schedule |
| Engine.SnapshotOrderStep | src/lib/simulationEngine.ts:232-237 | the next snapshot is not before time 0 and goes after every arrival at its minute |
| Engine.SnapshotsSoFarStep | src/lib/simulationEngine.ts:232-237 | one round of the snapshot loop keeps the list well formed and moves to the next interval |
| Engine.SnapshotsSoFarEnd | src/lib/simulationEngine.ts:232 | once past the horizon, the pending snapshot times are exactly the schedule |
| Engine.SnapshotEventsSnoc | src/lib/simulationEngine.ts:232-233 | one more pass of the snapshot loop schedules the snapshot of the next multiple of the interval |
| Engine.SnapshotEventsShare | src/lib/simulationEngine.ts:233-236 | snapshot events create no patient |
| Engine.Report | src/lib/simulationEngine.ts:185-196 | a snapshot has one metrics entry per node, in the order the queues were created, with that node's queue length |
| Engine.IdleReport | src/lib/simulationEngine.ts:185-196 | with every queue and wait history empty, each node reports length 0, utilization 0, p95 wait 0, its deaths and green |
| Engine.IdleReportAll | src/lib/simulationEngine.ts:185-196 | with every queue and wait history empty, the node metrics are fixed by the death log alone |
| Engine.ReportDeaths | src/lib/simulationEngine.ts:191 | each node reports the deaths logged at it, which add up to the death log's length |
| Engine.IdleNodesNoDeaths | src/lib/simulationEngine.ts:191 | without deaths every node reports zero deaths |
| Engine.SimulationEngine.constructor | src/lib/simulationEngine.ts:46-52 | the engine starts at time 0 with no patients, deaths or snapshots, the scenario's capacities, the full roster with each agent's exact draws from the given seed, exactly one staff-arrival event per agent who shows up and no snapshot event, and the generator advanced by the roster's draws |
| Engine.SimulationEngine.Initialize | src/lib/simulationEngine.ts:49-51 | the three setup calls leave the scenario's capacities, the full roster drawn from the starting seed, exactly its staff-arrival events, and the generator advanced by the roster's draws |
| Engine.SimulationEngine.InitializeResources | src/lib/simulationEngine.ts:54-68 | the capacities become the scenario's initial capacities |
| Engine.SimulationEngine.InitializeQueues | src/lib/simulationEngine.ts:90-96 | every node gets an empty queue and an empty wait history |
| Engine.SimulationEngine.InitializeStaff | src/lib/simulationEngine.ts:70-88 | the appended agents are the scenario's roster, role by role, each drawn from the seed the agents before it leave; earlier agents are untouched; the list gains exactly one arrival per appended agent who shows up; the generator advances by their draws |
| Engine.SimulationEngine.AddRole | src/lib/simulationEngine.ts:73-86 | the `count` agents of one role are appended in the order of their numbers, each drawn from the seed the agents before it leave, and the list and seed stay those the roster so far gives |
| Engine.SimulationEngine.DrawAgent | src/lib/simulationEngine.ts:74-82 | the agent's show probability is `uniform(0.85, 0.95)` of the first draw; at night it has an arrival time exactly when the second draw is below it, the role's triangular value of the third draw; one draw by day, two at night, plus one for an arrival time |
| Engine.SimulationEngine.AddAgent | src/lib/simulationEngine.ts:74-85 | the agent drawn from the current seed is appended, and exactly when it has an arrival time a staff-arrival event for it at that time is scheduled |
| Engine.SimulationEngine.ScheduleEvent | src/lib/simulationEngine.ts:98-101 | the event list becomes the insertion of the new event |
| Engine.SimulationEngine.StaffArrives | src/lib/simulationEngine.ts:103-109 | the agent goes on duty and the capacities change as a staff arrival changes them |
| Engine.SimulationEngine.GeneratePatient | src/lib/simulationEngine.ts:111-133 | consumes two draws, increments the id counter, and returns the new patient for those draws |
| Engine.SimulationEngine.GetNextNode | src/lib/simulationEngine.ts:150-167 | the next node is the routing table's successor, using one draw at `ed_service` and none elsewhere |
| Engine.SimulationEngine.ProcessPatientFlow | src/lib/simulationEngine.ts:135-148 | the patient moves to the routing table's successor, drawing at `ed_service` only, and gets a step at `time + uniform(10, 60)` of the next draw; with no successor it is discharged and nothing is scheduled; only that patient, the list and the seed change |
| Engine.SimulationEngine.MovePatient | src/lib/simulationEngine.ts:141-147 | the patient record takes the move; with a next node one draw schedules its next step at `time + uniform(10, 60)`, otherwise the list and the seed are unchanged |
| Engine.SimulationEngine.ScheduleStep | src/lib/simulationEngine.ts:144 | one draw schedules the patient's next step at `time + uniform(10, 60)` |
| Engine.SimulationEngine.CheckMortality | src/lib/simulationEngine.ts:169-182 | consumes one draw; below 0.01 the patient dies at their node and the death is logged, otherwise nothing changes |
| Engine.SimulationEngine.TakeSnapshot | src/lib/simulationEngine.ts:184-204 | appends exactly one snapshot, with the node metrics, the patient and death totals and the staff on duty, leaving earlier ones untouched |
| Engine.SimulationEngine.GetArrivalsAtTime | src/lib/simulationEngine.ts:249-257 | one Poisson call with the rate of the minute's hour bucket; the count is non-negative and always present below rate 30 |
| Engine.SimulationEngine.ScheduleArrivals | src/lib/simulationEngine.ts:218-229 | minute t draws `counts[t]` arrivals by one Poisson call at that minute's rate, from the seed minute t - 1 left; once all 4320 minutes are drawn the list is the old one with the `counts[t]` arrivals of every minute t scheduled in order; it gives up only at a minute whose rate is at least 30, where the rejection loop would not end |
| Engine.SimulationEngine.ScheduleSnapshots | src/lib/simulationEngine.ts:232-237 | the list becomes the old one with the snapshot events at 0, iv, 2 iv, ... up to the horizon scheduled in order; its pending snapshot times are exactly that schedule, none before time 0, each after the arrivals of its minute, and no arrival is added |
| Engine.SimulationEngine.ArrivalEvent | src/lib/simulationEngine.ts:222-226 | a patient numbered after the others, with the first two draws, is appended, moved to `triage_queue` and given a step at `time + uniform(10, 60)` of the third draw; staff and capacities are unchanged; no arrival, snapshot or entry before the clock is added |
| Engine.SimulationEngine.AddPatient | src/lib/simulationEngine.ts:223-224 | the patient made from the first two draws is appended with the next id, and only its step remains owed |
| Engine.SimulationEngine.StepEvent | src/lib/simulationEngine.ts:144 | patient i's scheduled step routes it exactly as `processPatientFlow` does; staff and capacities are unchanged; the drain measure grows by less than that patient's remaining steps plus one, and no arrival, snapshot or entry before the clock is added |
| Engine.SimulationEngine.SnapshotEvent | src/lib/simulationEngine.ts:233-236 | sets the clock to the event's time and appends one idle snapshot at that time whose patient total is the number of patients and whose staff counts are the agents on duty per role; earlier snapshots are untouched |
| Engine.SimulationEngine.RunEvent | src/lib/simulationEngine.ts:222-243 | the event does exactly what its closure does: an arrival admits a patient, a step routes its patient, a staff arrival puts its agent on duty with its capacity change, a snapshot changes none of these and appends one idle snapshot with the current patient and staff counts; the drain measure grows by less than the event's weight |
| Engine.SimulationEngine.Step | src/lib/simulationEngine.ts:241-243 | the front event is taken off, the clock moves to its time and never back, the event runs on the rest of the list exactly as its closure does, and the drain measure strictly falls |
| Engine.SimulationEngine.DrainStep | src/lib/simulationEngine.ts:240-244 | one pass of the drain loop keeps the snapshots taken and the roster in step with the events run, and lowers the drain measure |
| Engine.SimulationEngine.DrainLoop | src/lib/simulationEngine.ts:240-244 | the drain loop empties the list, creating one patient per pending arrival, and keeps the snapshots taken and the roster in step with the events run |
| Engine.SimulationEngine.Drain | src/lib/simulationEngine.ts:240-244 | the drain ends with an empty list and a clock that never went back; there is one patient per pending arrival, each discharged along a complete path; exactly the agents with an arrival time are now on duty and every other agent is unchanged; ED and triage capacity have grown by one per ED doctor and ED nurse who arrived; one idle snapshot is appended per pending snapshot time, in order, with patient totals that never decrease and are at most the final count |
| Engine.SimulationEngine.Finish | src/lib/simulationEngine.ts:231-246 | scheduling the snapshots and draining returns the snapshots, deaths and patients; every patient is discharged along a complete path, exactly the agents with an arrival time are put on duty, each arriving ED doctor and ED nurse adds one ED or triage place, and there is one idle snapshot per scheduled time, in order, with non-decreasing patient totals |
| Engine.SimulationEngine.DrainSchedule | src/lib/simulationEngine.ts:239-246 | draining a list whose snapshot times are the schedule returns the snapshots, deaths and patients, with the final roster, capacities and snapshots of `Finish` |
| Engine.SimulationEngine.Run | src/lib/simulationEngine.ts:216-247 | the arrival counts are the Poisson draws of the 4320 minutes, chained seed to seed from the starting seed; a completed run returns its snapshots, deaths and patients, with one patient per counted arrival, every patient discharged, exactly the called agents on duty, one more ED or triage place per arriving ED doctor or ED nurse, and floor(4320 / interval) + 1 idle snapshots at the times k * interval; it gives no result for a non-positive interval or a rate of 30 or more |
| Engine.SimulationEngine.GetActiveStaffCount | src/lib/simulationEngine.ts:206-214 | the counts are, per role, the number of agents on duty, with a key only for roles that have one |

## Left out

- The React pages and components, the spreadsheet export and the web-worker stub are outside
  the engine and are not modelled.
- The policy toggles p1 to p4 and `monteCarloRuns` are not read by the engine and are not part
  of `Config`.
- Numbers are exact reals: IEEE rounding, NaN and infinities are not modelled.
  - Negative seeds are excluded: the seed is a `nat`. With truncating `%` they would give
    negative draws and NaN.
  - Seeds so large that `seed * 9301` loses precision are not modelled.
- `Math.exp`, `log`, `sqrt`, `cos` and `PI` are a parameter of the engine. Only positivity
  and the square root's defining property are assumed of them.
- Random.SeededRandom.PoissonRejection: each loop of the rejection method runs at most
  `RoundLimit` rounds, one more than there are seeds; past that the model returns None.
  Such a loop would repeat a seed and never end. Whether the loop always ends is not decided.
- Engine.SimulationEngine.Run: returns None in two cases. The first is a non-positive
  snapshot interval, where the source loops forever. The second is a rejection loop that
  would not end.
- Engine.SimulationEngine.Run: requires the state the constructor leaves: time 0, no
  snapshots, no deaths, no pending snapshot event, and exactly one pending staff-arrival event
  per agent still to arrive.
- Schedule.SnapshotTime: snapshot times are exact multiples `k * interval`. The source sums
  the interval repeatedly in floating point, and the rounding that accumulates is not
  modelled.
- Engine.SimulationEngine.TakeSnapshot: uses a sorted copy of the wait history. The source
  sorts the stored array in place; the value is the same, and the array is never filled.
- Patient and agent ids are numbers: patient `n` and agent (role, index) for the source's
  strings. Capacity keys are an enumeration; `Metrics.ResourceKey` and `SimulationTypes.NodeName`
  give their strings.
- Events are data, not closures, and the methods that run them (`ArrivalEvent`, `AddPatient`,
  `StepEvent`, `SnapshotEvent`, `RunEvent`, `Step`, `DrainStep`, `DrainLoop`, `Drain`, `Finish`,
  `DrainSchedule`, `AddRole`, `AddAgent`, `DrawAgent`, `MovePatient`, `ScheduleStep`,
  `ScheduleMinute`, `Initialize`) are parts of the source's methods and closures split out.
- Engine.SimulationEngine.Drain: the snapshots taken during the drain are stated as idle, at
  their times, with patient totals that never decrease and are at most the final count. Each
  snapshot's exact patient total and staff counts are stated only when it is taken
  (`Engine.SimulationEngine.SnapshotEvent`, `Engine.SimulationEngine.RunEvent`), not in the
  drain's result. The same holds for `Engine.SimulationEngine.Finish` and
  `Engine.SimulationEngine.Run`.
- Engine.SimulationEngine.Run: the per-minute counts and seeds are ghost results. The source
  keeps no record of them.
- Engine.SimulationEngine.ScheduleSnapshots: the arrivals-before-snapshot order is proved for
  the list after scheduling. It is not carried through the drain, whose front-first order
  preserves it.
- The engine passes patients and agents by index, so a change to a patient object seen
  through another reference (aliasing) is not modelled.
