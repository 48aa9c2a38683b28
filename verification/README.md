# Port simulation components in Dafny

This project models the atomic DEVS components of a discrete-event simulation of a
sea port. Vessels enter from a generator, pass one-way canals and waterways, a
two-way canal, a lock with two water levels, an anchor point that asks a control
tower for a free dock, the docks themselves, and a confluence that routes each
vessel to the out-port serving its dock. Leaving vessels are collected at the sea.

Every component is a classic DEVS atomic model. It has a state, a time advance
`ta`, an external transition `δext(s, e, inputs)`, an output function `λ(s)` and
an internal transition `δint(s)`. In the model each of these is a pure function:

* The time advance is a field of type `Devs.Time`, either `Fin(t)` or `Inf`.
* An external transition receives the elapsed time `e`, with
  `0 <= e` and `e <= ta` as the kernel guarantees. It receives one
  `Option<Message>` per in-port.
* The source's failed `assert`, `IndexError` and `StopIteration` become
  `Result.Err`.
* Some output functions of the source also mutate the state (the anchor point,
  the control tower and the confluence clear a stored value). Here the output is
  pure and the mutation happens in the internal transition that always follows
  it.

Modules follow the source files:

* `Units`: the time to travel a distance at a speed, from `models/utils/math.py`.
* `Vessels`: the four vessel classes.
* `Messages`: the request and permission records.
* `Timers`: shared sequence helpers: lowering timers, first smallest timer,
  removal at an index, and a stable sort.
* One module per component: `UniCanal`, `UniWaterway`, `Canal`, `Lock`,
  `ControlTower`, `AnchorPoint`, `Dock`, `Confluence`, `Sea`.
* `PortEntry`: the anchor-point/control-tower handshake.
* `LockReplay`: replays the lock against a sequence of kernel events.

Where a component's code as written breaks its own experiment, the model holds
both an as-written definition and the corrected one. "## Findings" lists these.

Distances are in kilometres, velocities in knots and times in seconds. The
constants 1.852 km/h per knot and 3600 s per hour come from
`models/utils/constants.py`, which is not part of this model. The values are the
ones the experiments' comments imply: 19.8164 km at 10.7 knots takes one hour.

## Model

| member | source | states |
|---|---|---|
| Units.TimeInSeconds | models/utils/math.py:4-6 | the result times the speed in km/h is exactly the distance in km times 3600, so travelling that long at that speed covers the distance |
| Units.TimeIsPositive | models/utils/math.py:4-6 | a positive distance at a positive speed takes a positive time |
| Units.TimeStrictlyDecreasesWithVelocity | models/utils/math.py:4-6 | over the same positive distance a strictly faster vessel needs strictly less time |
| Units.MinVelocityNeverShorter | models/uni_canal.py:67-90 | moving at the slower of two speeds never takes less time than at either speed |
| Units.TimeIsLinearInDistance | models/utils/math.py:4-6 | k times the distance takes k times as long |
| Units.CalibrationDistances | tests/confluence_experiment.py:10-14 | 19.8164 km takes 3600 s for a tanker (10.7 kn) and 3210 s for a bulk carrier (12 kn); 39.6328 km takes 7200 s for a tanker |
| Vessels.NewVessel | models/vessels.py:5-19 | a fresh vessel keeps the given class, uid and creation time, with no destination dock and no time in the system yet |
| Vessels.ClassConstantsAreSane | models/vessels.py:22-54 | every class has a positive surface area and cruises at a positive average speed below its maximum speed |
| Vessels.ClassTableIsADistribution | models/vessels.py:57-69 | the class table lists each of the four classes exactly once, and their draw weights are positive and sum to 1 |
| Timers.Lower | models/dock.py:75-77 | each timer loses exactly the elapsed time, and the order and number of timers are unchanged |
| Timers.LowerTwice | models/dock.py:75-77 | lowering by `a` and then by `b` is lowering by `a + b` |
| Timers.FirstArgMin | models/uni_waterway.py:96-110 | the selected index holds the smallest timer, and every earlier index holds a strictly larger timer |
| Timers.RemoveAt | models/uni_waterway.py:78-82 | popping an index keeps every other element, in order, and removes exactly that element from the multiset |
| Timers.SortByKey | models/confluence.py:95-104 | the result is sorted by key and is a permutation of the input |
| Timers.SortByKeyIsStable | models/confluence.py:95-104 | elements with equal keys keep their relative order, as in Python's `sorted` |
| UniCanal.Initial | models/uni_canal.py:11-41 | a new canal is empty, passive and valid |
| UniCanal.GetTimer | models/uni_canal.py:67-90 | alone, a vessel travels at its own speed; behind another vessel its timer is the longer of the two solo travel times, so it never overtakes the vessel ahead |
| UniCanal.ExtTransition | models/uni_canal.py:43-65 | accepts exactly vessel messages, appends the vessel, keeps every earlier vessel's absolute deadline and the head's scheduled departure, and keeps the state valid |
| UniCanal.Output | models/uni_canal.py:97-99 | sends the head of the queue, and fails exactly when the canal is empty |
| UniCanal.IntTransition | models/uni_canal.py:101-119 | removes exactly the head, keeps the other vessels' absolute deadlines, and fails exactly when empty |
| UniCanal.Step | models/uni_canal.py:43-119 | one kernel step preserves validity; what left so far, then what is still in the canal, equals what was there before plus what arrived |
| UniCanal.RunIsFifo | models/uni_canal.py:43-119 | over any run, the departures followed by the remaining vessels are exactly the initial vessels followed by the arrivals: the canal is first in, first out |
| UniCanal.SpeedCouplingScenario | tests/uni_canal_experiment.py:85-88 | a tanker entering at 0 and a bulk carrier entering at 10 both spend 3600 s in the canal, because the carrier is held to the tanker's speed |
| UniCanal.NegativeTimeAdvanceScenario | models/uni_canal.py:67-90 | coupling only to the vessel directly ahead lets a later vessel's timer undercut an earlier one: after a freighter and a carrier leave, the time advance is -2808.75 s |
| UniWaterway.Initial | models/uni_waterway.py:11-41 | a new waterway is empty, passive and valid |
| UniWaterway.GenerateAtSmallestTimer | models/uni_waterway.py:96-110 | on a non-empty waterway it selects the first smallest timer and schedules it, and it fails exactly on an empty one |
| UniWaterway.ExtTransition | models/uni_waterway.py:43-66 | a vessel message appends the vessel with its own solo travel time; earlier vessels keep their absolute deadlines, and the first smallest timer is reselected; an empty input is accepted only when the waterway is not empty |
| UniWaterway.Output | models/uni_waterway.py:71-76 | sends the selected vessel, and fails exactly when no valid selection exists |
| UniWaterway.IntTransition | models/uni_waterway.py:78-94 | removes exactly the selected vessel and its timer, keeps the others' absolute deadlines, and becomes passive when empty |
| UniWaterway.SelectionIsFirstArgMin | models/uni_waterway.py:96-110 | in every valid non-empty state the selected vessel is the one the left-to-right minimum scan finds |
| UniWaterway.FasterArrivalLeavesFirst | models/uni_waterway.py:43-66 | a vessel whose travel time undercuts every remaining timer is the next to be sent: waterways allow overtaking |
| UniWaterway.OvertakingScenario | tests/uni_waterway_experiment.py:81-84 | a bulk carrier entering 10 s after a tanker leaves first after 3210 s, and the tanker leaves 380 s later |
| Canal.VesselsOf | models/canal.py:11-17 | the projection of records to vessels keeps length and order |
| Canal.LowerRecords | models/canal.py:63-76 | each record keeps its vessel and loses exactly the elapsed time |
| Canal.Initial | models/canal.py:20-61 | a new canal is empty, passive and scheduled |
| Canal.JoiningTimer | models/canal.py:78-119 | a vessel alone in its direction travels at its own speed. Behind another vessel it is slowed down to match it: over a positive distance its timer is the longer of the two solo travel times, never shorter than that of the vessel ahead |
| Canal.EnqueueVesselRecord | models/canal.py:78-119 | appends the vessel's record to its direction only, and takes over the schedule exactly when that direction was empty and the new timer is earlier than the current time advance |
| Canal.Accept | models/canal.py:63-76 | enqueues what came in on `in1` and then what came in on `in2`, keeps the existing records, fails exactly on a non-vessel input, and preserves the schedule invariant |
| Canal.LowerQueues | models/canal.py:63-76 | both queues lose the elapsed time and validity is kept |
| Canal.ExtTransitionAsWritten | models/canal.py:63-76 | the code as written: records are lowered but a kept schedule keeps the full, unlowered time advance |
| Canal.ExtTransition | models/canal.py:63-76 | the corrected transition: the scheduled head still departs at its absolute deadline (`ta' + e == ta`), and the schedule invariant is kept |
| Canal.Output | models/canal.py:124-130 | sends the head of the selected direction on that direction's out-port, and fails exactly without one |
| Canal.EarlierHead | models/canal.py:132-172 | picks a non-empty direction whose head is due no later than the other direction's head. Direction 1 is picked exactly when its head is due strictly earlier or direction 2 is empty, so a tie goes to direction 2 |
| Canal.IntTransition | models/canal.py:132-172 | removes exactly the departed head, lowers all other records by the time advance, and reschedules the earlier head. Direction 1 is selected exactly when its head is due strictly before direction 2's, so ties go to direction 2 |
| Canal.DriftScenario | tests/canal_experiment.py:120-128 | as written, the canal experiment's first tanker leaves at 3615 s instead of 3600 s, and the next time advance is -10 s |
| Canal.CorrectedExperiment | tests/canal_experiment.py:120-128 | corrected, the four vessels each spend exactly 3600 s in the canal and leave alternately on both sides |
| Canal.AsInput | models/canal.py:63-76 | an optional vessel becomes an acceptable input that delivers exactly that vessel |
| Canal.DepartedOnAppend | models/canal.py:124-130 | the departures on one side of a concatenated log are those of each part, concatenated |
| Canal.FireConserves | models/canal.py:124-172 | a firing moves exactly the head of the selected direction to that side's departures and leaves the other direction alone |
| Canal.Step | models/canal.py:63-172 | with the corrected external transition, one kernel step keeps the schedule and conserves each direction's vessels in order |
| Canal.RunIsFifoPerDirection | models/canal.py:63-172 | with the corrected external transition, over any run each direction is first in, first out: its departures then its queue equal its initial queue then its arrivals, whatever the other direction does |
| Canal.StepAsWritten | models/canal.py:63-172 | with the external transition as written, one kernel step keeps the state valid and conserves each direction's vessels in order, although the schedule may drift |
| Canal.RunAsWrittenIsFifoPerDirection | models/canal.py:126-134 | for the canal as written, over any run each direction is first in, first out: its departures then its queue equal its initial queue then its arrivals |
| Lock.Initial | models/lock.py:45-67 | a new lock is open at the high level with empty chamber and queues, due to fire at once, and valid for a sane configuration |
| Lock.AreaOfTail | models/lock.py:142-161 | the chamber's occupied area strictly shrinks when its head leaves |
| Lock.Admit | models/lock.py:173-190 | the greedy transfer splits the queue into admitted and left-behind subsequences, both in order; it admits exactly the budget minus what stays free; no left-behind vessel fits in what stays free |
| Lock.AdmitSnoc | models/lock.py:177-183 | one more waiting vessel is one more turn of the loop: it is admitted exactly when it fits into what the earlier turns left free, and otherwise joins the end of the waiting list |
| Lock.AdmitIsFirstFit | models/lock.py:177-183 | first fit: the k-th waiting vessel is admitted exactly when its area fits into what is still free after the first k, and is left waiting otherwise. This fixes which vessels enter |
| Lock.Transfer | models/lock.py:173-187 | fills an empty chamber from the current side's queue in order, without exceeding the surface area, with exactly the vessels first-fit admission takes; every vessel left waiting would not fit; the other side's queue is unchanged |
| Lock.NormalTransitionTime | models/lock.py:93-103 | gate phases take the gate duration, washing takes the washing duration, and the open phase takes what remains, so the four phases fill one lock shift |
| Lock.ExtTransition | models/lock.py:69-91 | the high input wins when both sides deliver; the vessel joins its side's queue; the deadline is kept; the chamber and phase are unchanged; validity is preserved |
| Lock.HandleGateIsOpen | models/lock.py:142-161 | an open gate releases the chamber's head; with more vessels inside it waits the departure interval, otherwise it starts closing |
| Lock.IntTransition | models/lock.py:108-140 | the phases cycle closing, washing, opening, open. Closing fills the chamber by first-fit admission; washing swaps the level and counts the wash and any idle shift; open empties the chamber one vessel at a time. Validity is preserved, and a closing gate with vessels inside fails |
| Lock.Output | models/lock.py:163-171 | emits the chamber's head on the current level's side, exactly when the gate is open and the chamber is not empty |
| Lock.CycleFillsOneShift | models/lock.py:93-140 | from an open empty lock, four internal transitions return it to open on the other level, and their durations add up to one lock shift |
| LockReplay.DepartedVessels | models/lock.py:163-171 | the departed vessels are listed in departure order |
| LockReplay.InterleavesSplitsMultiset | models/lock.py:173-187 | splitting a queue into two ordered subsequences loses and invents no vessel |
| LockReplay.IntTransitionConserves | models/lock.py:108-171 | an internal transition keeps every vessel except the one it emits |
| LockReplay.Step | models/lock.py:69-171 | one kernel step accounts for every vessel: held plus delivered equals held plus departed plus dropped. Only the low vessel of an arrival on both sides at once is dropped. The step also advances the clock correctly and preserves validity |
| LockReplay.RunConservesVessels | models/lock.py:69-171 | over any run the lock invents no vessel. It loses none except the low vessels of simultaneous two-sided arrivals: held plus delivered equals held plus departed plus dropped |
| LockReplay.LowVesselIsDropped | models/lock.py:73-86 | when both sides deliver a vessel at once, only the high vessel joins the lock and nothing leaves. A low vessel not already held is held nowhere afterwards |
| LockReplay.LockExperiment | tests/lock_experiment.py:140-193 | the lock experiment's arrivals lead to exactly the expected departures on both sides, and every vessel's time in the system matches the experiment's assertions |
| ControlTower.Initial | models/control_tower.py:34-44 | every dock starts with all of its configured spots free, and the tower is passive with no requests |
| ControlTower.FirstAvailableDock | models/control_tower.py:51-83 | finds the first dock with a non-zero free count, and finds none exactly when all counts are zero |
| ControlTower.ExtTransition | models/control_tower.py:51-83 | a request when every dock is full is queued. Otherwise it takes one spot of the first available dock, changes no other dock, and schedules a permission naming that dock. Non-request inputs fail |
| ControlTower.Output | models/control_tower.py:88-93 | emits the stored permission, and fails exactly when none is stored |
| ControlTower.IntTransition | models/control_tower.py:46-49 | the tower becomes passive and drops the sent permission, keeping the free spots and queued requests |
| ControlTower.IssuedAppend | models/control_tower.py:51-83 | permissions issued for a dock over a concatenated log add up |
| ControlTower.AnswerConserves | models/control_tower.py:51-93 | one request to an idle tower (nothing pending) never fails. It is either queued or answered, and only the answering dock loses a spot, exactly one |
| ControlTower.SpotsAreConserved | models/control_tower.py:51-93 | serving any request sequence, answered one at a time from an idle tower, never fails and never drives a count negative. Each dock's free count drops by exactly the number of permissions issued for it. Every request is either granted or kept in arrival order, and no spot is ever given back |
| AnchorPoint.Initial | models/anchor_point.py:11-41 | a new anchor point is passive, holds no vessels and has nothing to do |
| AnchorPoint.FindVessel | models/anchor_point.py:48-78 | finds the first vessel with the permitted uid, and finds none exactly when no vessel has it |
| AnchorPoint.ExtTransition | models/anchor_point.py:48-78 | an arriving vessel is stored, and a request for it is scheduled at once. A permission stamps exactly the permitted vessel with its dock and schedules that vessel's release. A permission for an unknown vessel, or a wrong message, fails |
| AnchorPoint.Output | models/anchor_point.py:83-97 | emits the stored request or the stored vessel, as the pending action says, and fails when that is missing |
| AnchorPoint.IntTransition | models/anchor_point.py:43-46 | becomes passive and clears exactly the item just sent |
| PortEntry.ReleaseCarriesReservedDock | models/anchor_point.py:48-97 | one request/permission round trip with a tower that has a free spot releases the arriving vessel stamped with the first free dock, and that dock loses exactly one spot |
| Dock.HoldingTime | models/dock.py:84-91 | the holding time is the sampled time, clamped from below at six hours |
| Dock.Initial | models/dock.py:39-73 | preloaded vessels each get a clamped holding time, and the dock waits passively with nothing selected |
| Dock.GenerateAtSmallestTimer | models/dock.py:140-154 | selects and schedules the first smallest timer, and fails exactly on an empty dock |
| Dock.ExtTransition | models/dock.py:75-103 | a vessel message moors the vessel with a clamped holding time; the other vessels keep their absolute departure times; the earliest departure is reselected; anything else fails |
| Dock.Output | models/dock.py:108-120 | sends the selected vessel routed to the sea (dock "9") with a departure request naming this dock, and fails without a selection |
| Dock.IntTransition | models/dock.py:122-138 | removes exactly the selected vessel, keeps the others' absolute departure times, and becomes passive when empty |
| Dock.PreloadWaitsForFirstArrival | models/dock.py:39-103 | a preloaded dock does not fire until the first arrival. The first arrival schedules a departure no later than any holding time, the preloaded ones lowered by the wait |
| Confluence.FindRecord | models/confluence.py:42-73 | finds the first route whose docks include the destination, and finds none exactly when there is no destination or no route serves it |
| Confluence.RouteOf | models/confluence.py:42-73 | a vessel's out-port is the port of the first route serving its destination dock |
| Confluence.TravelTime | models/confluence.py:50-56 | the travel time covers the route's distance at the vessel's average speed |
| Confluence.InitialAsWritten | models/confluence.py:28-38 | a new confluence is empty and passive, with no port chosen |
| Confluence.LowerPairs | models/confluence.py:57-61 | each pair keeps its vessel and loses exactly the elapsed time |
| Confluence.ScheduleBySmallestTimer | models/confluence.py:95-104 | sorts the pairs stably by timer and schedules the smallest, and fails exactly when there are none |
| Confluence.ExtTransitionAsWritten | models/confluence.py:42-73 | the code as written: the new pair is appended before lowering, the chosen port is the arriving vessel's, and an unknown destination or non-vessel input fails |
| Confluence.OutputAsWritten | models/confluence.py:78-89 | the code as written: sends the head pair's vessel on the last chosen port, and fails when no port is chosen |
| Confluence.IntTransitionAsWritten | models/confluence.py:91-104 | the code as written: drops the head and clears the port without lowering, and fails unless another vessel remains |
| Confluence.Initial | models/confluence.py:28-38 | the corrected confluence starts empty, passive and valid |
| Confluence.LowerRouted | models/confluence.py:57-61 | each routed pair keeps its vessel and port and loses exactly the elapsed time |
| Confluence.Schedule | models/confluence.py:95-104 | the pairs are sorted stably by timer, and the state is passive exactly when empty and otherwise due at the smallest timer |
| Confluence.RoutesAgreeOnPermutation | models/confluence.py:95-104 | reordering the pairs keeps every vessel on its own route |
| Confluence.ExtTransition | models/confluence.py:42-73 | the corrected transition lowers only the pairs already waiting. The new vessel joins with its full travel time and its own port; validity is kept; every vessel keeps its own route |
| Confluence.Output | models/confluence.py:78-89 | sends the head vessel on the port stored with it, and fails exactly when empty |
| Confluence.DispatchFollowsOwnRoute | models/confluence.py:78-89 | when every pair carries its own route, the dispatched vessel leaves on the port serving its destination dock |
| Confluence.IntTransition | models/confluence.py:91-104 | removes exactly the dispatched pair, lowers the rest by the time advance, becomes passive after the last one, and keeps every vessel on its own route |
| Confluence.ExperimentRoutes | tests/confluence_experiment.py:15-26 | docks "1" and "4" map to the first and second routes, which take a tanker 3600 s and 7200 s |
| Confluence.LoneVesselCrashesAsWritten | models/confluence.py:91-104 | as written, dispatching the only waiting vessel fails, because the schedule reads the first element of an empty list |
| Confluence.ArrivalIsLoweredToo | models/confluence.py:57-61 | as written, the tanker arriving at 3600 s has its new timer lowered by 3600 s, so it leaves at once instead of after an hour |
| Confluence.SecondDispatchFails | models/confluence.py:86-88 | as written, the port is cleared after a dispatch, so the next vessel cannot be sent |
| Confluence.RemainingVesselIsDelayed | models/confluence.py:91-93 | as written, the vessel left waiting after a dispatch keeps its full timer and leaves an hour late |
| Confluence.HeadTakesLastArrivalsPort | models/confluence.py:67-71 | as written, the head vessel bound for dock "1" is sent on the port of the dock-"4" vessel that arrived after it |
| Confluence.CorrectedExperiment | tests/confluence_experiment.py:10-41 | corrected, the dock-"4" tanker leaves on route 2 and the dock-"1" tanker on route 1, both two hours after the first arrival (at 7200 s counted from it), after which the confluence is passive |
| ControlTower.PendingPermissionIsOverwritten | models/control_tower.py:51-83 | a request arriving while a permission is still pending takes a spot and replaces the stored permission, so the earlier vessel's permission is lost; the free spots of all docks drop by one |
| ControlTower.SimultaneousRequestsLoseASpot | models/control_tower.py:51-93 | two requests at the same instant to a dock with two spots use both spots, but only the second vessel ever receives a permission |
| Sea.Initial | models/sea.py:9-22 | the sea starts empty at time 0 |
| Sea.ExtTransition | models/sea.py:24-35 | the clock advances by the elapsed time, and the arriving vessel is appended, stamped with the current time minus its creation time; non-vessel input fails |
| Sea.CollectStampsTimeInSystem | models/sea.py:24-35 | for any in-order sequence of arrivals, the sea's clock ends at the last arrival time. Every vessel is stamped with its arrival time minus its creation time, in arrival order |

## Left out

- The pypdevs simulation kernel, the coupled port network (`models/port_network.py`), the generator (`models/generator.py`), the two-way waterway (`models/waterway.py`) and the drawio code generation are not part of this model. `LockReplay` and the `Step`/`Run` functions of `UniCanal` and `Canal` play the kernel's part for one component.
- Random sampling: the dock's normal distribution and the generator's class draw are parameters (`sample`, `samples`). Only the six-hour clamp of the holding time is modelled.
- Floating point: times and distances are exact reals, so the experiments' "plus some leeway for rounding" is not needed. Integer fields of the lock are unbounded `int`s.
- `models/utils/constants.py` is not part of this model; `Units.KmhPerKnot` (1.852) and `Units.SecondsPerHour` (3600) stand in for it.
- `confluence.py` calls `vessel.get_time_in_seconds(distance)`, which `Vessel` does not define. `Confluence.TravelTime` reads it as the travel time at the vessel's average speed, as the experiment's comment expects.
- State classes of the source give mutable defaults at class level, so the lists would be shared between instances. The model gives every component its own state.
- The experiments construct vessels without a creation time; the model supplies one.
- Confluence scenarios: the experiment's generator emits its first vessel at t = 1 (`tests/utils/simple_generator.py:24-31`). The scenarios count time from the first arrival and feed it with elapsed time 0. As written, a first arrival after 1 s would also have its own timer lowered to 7199 s; only the one-hour gap between the arrivals matters to the findings.
- Lock.ExtTransition: does not state that the washing, idle-time and empty-shift counters stay unchanged, because no property here depends on them.
- LockReplay.LockExperiment: the kernel's ordering of an output and an arrival at the same instant is fixed as firing first, which is how the experiment's generators are timed.
- ControlTower.SpotsAreConserved: covers only requests answered one at a time. A request that arrives while a permission is pending overwrites it (`models/control_tower.py:76-77`), so its spot is taken and never issued; `ControlTower.SimultaneousRequestsLoseASpot` exhibits this.
- LockReplay.RunConservesVessels: a low vessel that arrives together with a high one is dropped, because `models/lock.py:73-86` only looks at the low port when the high port is silent. The conservation counts it under `Dropped`, not inside the lock.
- UniCanal.GetTimer: for a distance that is not positive, only the empty-canal case is stated.

## Findings

| source | as written | input that shows it | evidently intended | confidence | as-written member | corrected member |
|---|---|---|---|---|---|---|
| models/canal.py:63-76 | the external transition lowers every record's timer by the elapsed time, but keeps the time advance unchanged when the selected head does not change | the canal experiment: a tanker in direction 1 at t = 0, then vessels at t = 5, 10 and 15 | the time advance is lowered with the timers, so the head still leaves at its absolute deadline (3600 s) | not executed | Canal.DriftScenario | Canal.CorrectedExperiment |
| models/confluence.py:57-61 | the new vessel-timer pair is appended before all timers are lowered by the elapsed time, so a new vessel's travel time is cut by the time since the previous event | the confluence experiment: a dock-"4" tanker, then a dock-"1" tanker one hour later | only the pairs already waiting are lowered | not executed | Confluence.ArrivalIsLoweredToo | Confluence.ExtTransition |
| models/confluence.py:67-71 | one output port is stored for the whole component, taken from the last arrival, and used for whichever vessel is dispatched next | a dock-"1" tanker at t = 0, then a dock-"4" tanker at t = 10 | each vessel leaves on the port serving its own destination dock | not executed | Confluence.HeadTakesLastArrivalsPort | Confluence.DispatchFollowsOwnRoute |
| models/confluence.py:86-88 | the output clears the stored port, so a second vessel dispatched without an arrival in between fails the output's assertion | the confluence experiment: after the first dispatch, one hour after the first arrival, the other tanker still waits | every waiting vessel can be dispatched | not executed | Confluence.SecondDispatchFails | Confluence.CorrectedExperiment |
| models/confluence.py:91-93 | the internal transition drops the head but does not lower the remaining timers by the time advance | two tankers at t = 0 bound for docks "1" and "4" | the remaining vessels keep their absolute deadlines | not executed | Confluence.RemainingVesselIsDelayed | Confluence.IntTransition |
| models/confluence.py:95-104 | the schedule reads the first pair even when the internal transition has just removed the last one | a single tanker: its dispatch leaves the list empty | the confluence becomes passive when empty | not executed | Confluence.LoneVesselCrashesAsWritten | Confluence.IntTransition |
