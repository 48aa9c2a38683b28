/** models/uni_waterway.py: a one-way waterway in which vessels may overtake.
    Every vessel travels at its own average velocity, and the vessel whose
    timer runs out first leaves, wherever it is in the list. */
module UniWaterway {
  import opened Wrappers
  import opened Devs
  import opened Units
  import opened Vessels
  import opened Messages
  import opened Timers

  /** Constructor parameter of `UniWaterway(name, distance_in_km)`. */
  datatype Config = Config(distanceKm: real)

  /** `UniWaterwayState`: `vessels[i]` is associated with `timers[i]`, and
      `indexForNextVessel` points at the vessel that leaves next. */
  datatype UniWaterwayState = UniWaterwayState(
    remainingTime: Time,
    vessels: seq<Vessel>,
    timers: seq<real>,
    indexForNextVessel: Option<nat>)

  /** The schedule of a non-empty waterway, stated without the scan: the
      stored index is the FIRST position holding a smallest timer, and the
      time advance is that timer. */
  predicate SelectsFirstMin(s: UniWaterwayState) {
    && s.indexForNextVessel.Some?
    && IsFirstMin(s.timers, s.indexForNextVessel.value)
    && s.remainingTime == Fin(s.timers[s.indexForNextVessel.value])
  }

  /** What every reachable state satisfies.  Once the waterway is empty again
      the stored index is stale; it is never read while passive. */
  predicate Valid(s: UniWaterwayState) {
    && |s.vessels| == |s.timers|
    && (|s.vessels| == 0 <==> s.remainingTime.Inf?)
    && (|s.vessels| > 0 ==> SelectsFirstMin(s))
  }

  function Initial(): (s: UniWaterwayState)
    ensures Valid(s) && s.vessels == [] && s.indexForNextVessel.None?
  {
    UniWaterwayState(Inf, [], [], None)
  }

  /** `generate_at_smallest_timer`: schedule the first smallest timer.  An
      empty waterway fails the method's assertion. */
  function GenerateAtSmallestTimer(s: UniWaterwayState): (r: Result<UniWaterwayState>)
    requires |s.vessels| == |s.timers|
    ensures r.Ok? <==> |s.vessels| > 0
    ensures r.Ok? ==> Valid(r.value) && r.value.vessels == s.vessels && r.value.timers == s.timers
  {
    if |s.vessels| == 0 then Err("generate_at_smallest_timer: empty waterway")
    else
      var k := FirstArgMin(s.timers);
      Ok(s.(remainingTime := Fin(s.timers[k]), indexForNextVessel := Some(k)))
  }

  /** `extTransition`: lower every timer by the elapsed time, append the new
      vessel with the timer for its own average velocity, and reschedule at
      the smallest timer.  A non-vessel input is a failed assertion, and so is
      rescheduling an empty waterway when nothing arrived. */
  function ExtTransition(c: Config, s: UniWaterwayState, e: real, inVessel: Option<Message>): (r: Result<UniWaterwayState>)
    requires Valid(s) && 0.0 <= e && s.remainingTime.AtLeast(e)
    ensures r.Ok? <==> (inVessel.None? && |s.vessels| > 0) || (inVessel.Some? && inVessel.value.VesselMsg?)
    ensures r.Ok? ==> Valid(r.value) && SelectsFirstMin(r.value)
    ensures r.Ok? ==> r.value.vessels == s.vessels + (if inVessel.Some? then [inVessel.value.vessel] else [])
    ensures r.Ok? ==> |r.value.timers| == |s.timers| + (if inVessel.Some? then 1 else 0)
    // the vessels already under way keep their absolute deadline
    ensures r.Ok? ==> forall i :: 0 <= i < |s.timers| ==> r.value.timers[i] + e == s.timers[i]
    ensures r.Ok? && inVessel.Some? ==>
              r.value.timers[|s.timers|] == TimeInSeconds(c.distanceKm, inVessel.value.vessel.AvgVelocity())
  {
    var lowered := Lower(s.timers, e);
    if inVessel.Some? then
      if inVessel.value.VesselMsg? then
        var v := inVessel.value.vessel;
        ClassConstantsAreSane(v.vesselClass);
        var timer := TimeInSeconds(c.distanceKm, v.AvgVelocity());
        GenerateAtSmallestTimer(s.(vessels := s.vessels + [v], timers := lowered + [timer]))
      else Err("extTransition: input is not a vessel")
    else
      GenerateAtSmallestTimer(s.(timers := lowered))
  }

  /** `outputFnc`: the vessel at the stored index, which must be set. */
  function Output(s: UniWaterwayState): (r: Result<Vessel>)
    ensures r.Ok? <==> s.indexForNextVessel.Some? && s.indexForNextVessel.value < |s.vessels|
    ensures r.Ok? ==> r.value == s.vessels[s.indexForNextVessel.value]
  {
    match s.indexForNextVessel
    case None => Err("outputFnc: no vessel selected")
    case Some(k) => if k < |s.vessels| then Ok(s.vessels[k]) else Err("outputFnc: index out of range")
  }

  /** `intTransition`: remove the selected vessel and its timer; the others
      keep their order, are lowered by the time that just passed, and the
      smallest is selected again, or the waterway becomes passive. */
  function IntTransition(s: UniWaterwayState): (r: Result<UniWaterwayState>)
    requires Valid(s)
    ensures r.Ok? <==> |s.vessels| > 0
    ensures r.Ok? ==> Valid(r.value)
    ensures r.Ok? ==> r.value.vessels == RemoveAt(s.vessels, s.indexForNextVessel.value)
    ensures r.Ok? ==> |r.value.timers| == |s.timers| - 1
    ensures r.Ok? ==> forall i :: 0 <= i < |r.value.timers| ==>
              r.value.timers[i] + s.remainingTime.value == RemoveAt(s.timers, s.indexForNextVessel.value)[i]
    ensures r.Ok? && |r.value.vessels| == 0 ==> r.value.remainingTime == Inf
  {
    if |s.vessels| == 0 then Err("intTransition: pop from empty list")
    else
      var k := s.indexForNextVessel.value;
      var vessels := RemoveAt(s.vessels, k);
      var popped := RemoveAt(s.timers, k);
      if |vessels| == 0 then Ok(s.(remainingTime := Inf, vessels := vessels, timers := popped))
      else GenerateAtSmallestTimer(s.(vessels := vessels, timers := Lower(popped, s.remainingTime.value)))
  }

  /** The scan and its specification agree: a non-empty valid state selects
      exactly `FirstArgMin` of its timers. */
  lemma {:induction false} SelectionIsFirstArgMin(s: UniWaterwayState)
    requires Valid(s) && |s.vessels| > 0
    ensures s.indexForNextVessel == Some(FirstArgMin(s.timers))
  {
    FirstArgMinIsUnique(s.timers, s.indexForNextVessel.value);
  }

  /** Overtaking: a vessel whose travel time is strictly below what every
      vessel already inside has left is the next to leave, whatever its place
      in the list. */
  lemma {:induction false} FasterArrivalLeavesFirst(c: Config, s: UniWaterwayState, e: real, v: Vessel)
    requires Valid(s) && 0.0 <= e && s.remainingTime.AtLeast(e)
    requires forall i :: 0 <= i < |s.timers| ==> TimeInSeconds(c.distanceKm, v.AvgVelocity()) < s.timers[i] - e
    ensures ExtTransition(c, s, e, Some(VesselMsg(v))).Ok?
    ensures Output(ExtTransition(c, s, e, Some(VesselMsg(v))).value) == Ok(v)
  {
    var r := ExtTransition(c, s, e, Some(VesselMsg(v))).value;
    var k := r.indexForNextVessel.value;
    // the new timer is a minimum, so nothing earlier can be selected
    assert r.timers[k] <= r.timers[|s.timers|];
  }

  // The overtaking experiment: a Crude Oil Tanker enters a 19.8164 km
  // waterway at t = 0 and a Bulk Carrier follows at t = 10.

  function ExperimentWaterway(): Config { Config(19.8164) }
  function Tanker(): Vessel { NewVessel(CrudeOilTanker, 0, 0.0) }
  function Carrier(): Vessel { NewVessel(BulkCarrier, 1, 10.0) }

  function WithTanker(): UniWaterwayState {
    UniWaterwayState(Fin(3600.0), [Tanker()], [3600.0], Some(0))
  }

  function WithBoth(): UniWaterwayState {
    UniWaterwayState(Fin(3210.0), [Tanker(), Carrier()], [3590.0, 3210.0], Some(1))
  }

  lemma TankerEnters()
    ensures ExtTransition(ExperimentWaterway(), Initial(), 0.0, Some(VesselMsg(Tanker()))) == Ok(WithTanker())
  {
    CalibrationDistances();
    var r := ExtTransition(ExperimentWaterway(), Initial(), 0.0, Some(VesselMsg(Tanker()))).value;
    assert r.timers == [3600.0];
    assert r.vessels == [Tanker()];
  }

  lemma CarrierEnters()
    ensures ExtTransition(ExperimentWaterway(), WithTanker(), 10.0, Some(VesselMsg(Carrier()))) == Ok(WithBoth())
  {
    CalibrationDistances();
    var r := ExtTransition(ExperimentWaterway(), WithTanker(), 10.0, Some(VesselMsg(Carrier()))).value;
    assert r.timers == [3590.0, 3210.0];
    assert r.vessels == [Tanker(), Carrier()];
  }

  /** As in the source's experiment: the carrier, entering 10 s later, leaves
      first after 3210 s in the waterway (at t = 3220), and the tanker leaves
      380 s after that (at t = 3600). */
  function TankerLeft(): UniWaterwayState {
    UniWaterwayState(Fin(380.0), [Tanker()], [380.0], Some(0))
  }

  lemma CarrierLeaves()
    ensures IntTransition(WithBoth()) == Ok(TankerLeft())
  {
    assert RemoveAt(WithBoth().vessels, 1) == [Tanker()];
    var popped := RemoveAt(WithBoth().timers, 1);
    assert popped == [3590.0];
    var lowered := Lower(popped, 3210.0);
    assert |lowered| == 1 && lowered[0] == 380.0;
    assert lowered == [380.0];
    assert FirstArgMin(lowered) == 0;
  }

  lemma OvertakingScenario()
    ensures ExtTransition(ExperimentWaterway(), Initial(), 0.0, Some(VesselMsg(Tanker()))) == Ok(WithTanker())
    ensures ExtTransition(ExperimentWaterway(), WithTanker(), 10.0, Some(VesselMsg(Carrier()))) == Ok(WithBoth())
    ensures WithBoth().remainingTime == Fin(3210.0) && Output(WithBoth()) == Ok(Carrier())
    ensures IntTransition(WithBoth()) == Ok(TankerLeft())
    ensures TankerLeft().remainingTime == Fin(380.0) && Output(TankerLeft()) == Ok(Tanker())
    ensures IntTransition(TankerLeft()).Ok? && IntTransition(TankerLeft()).value.remainingTime == Inf
  {
    TankerEnters();
    CarrierEnters();
    CarrierLeaves();
  }
}
