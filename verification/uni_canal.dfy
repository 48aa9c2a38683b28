/** models/uni_canal.py: a one-way canal in which vessels cannot overtake.
    A vessel's travel timer is computed from the slower of its own average
    velocity and that of the vessel directly in front of it, and only the
    head of the queue may leave. */
module UniCanal {
  import opened Wrappers
  import opened Devs
  import opened Units
  import opened Vessels
  import opened Messages
  import opened Timers

  /** Constructor parameter of `UniCanal(name, distance_in_km)`. */
  datatype Config = Config(distanceKm: real)

  /** `UniCanalState`: `vessels[i]` is associated with `timers[i]`. */
  datatype UniCanalState = UniCanalState(remainingTime: Time, vessels: seq<Vessel>, timers: seq<real>)

  /** What every reachable state satisfies: parallel lists of equal length,
      passive exactly when empty, and otherwise scheduled at the head's timer. */
  predicate Valid(s: UniCanalState) {
    && |s.vessels| == |s.timers|
    && (|s.vessels| == 0 <==> s.remainingTime.Inf?)
    && (|s.vessels| > 0 ==> s.remainingTime == Fin(s.timers[0]))
  }

  function Initial(): (s: UniCanalState)
    ensures Valid(s) && s.vessels == [] && s.remainingTime == Inf
  {
    UniCanalState(Inf, [], [])
  }

  /** `get_timer`: alone in the canal a vessel travels at its own average
      velocity; behind another vessel it is held to the slower of the two.
      For a positive distance the timer is therefore the LONGER of the two
      solo travel times, never shorter than either. */
  function GetTimer(c: Config, s: UniCanalState, v: Vessel): (t: real)
    ensures |s.vessels| == 0 ==> t == TimeInSeconds(c.distanceKm, v.AvgVelocity())
    ensures c.distanceKm > 0.0 && |s.vessels| > 0 ==>
              t == Max(TimeInSeconds(c.distanceKm, v.AvgVelocity()),
                       TimeInSeconds(c.distanceKm, s.vessels[|s.vessels| - 1].AvgVelocity()))
  {
    ClassConstantsAreSane(v.vesselClass);
    if |s.vessels| == 0 then
      TimeInSeconds(c.distanceKm, v.AvgVelocity())
    else
      var front := s.vessels[|s.vessels| - 1];
      ClassConstantsAreSane(front.vesselClass);
      var velocity := if v.AvgVelocity() <= front.AvgVelocity() then v.AvgVelocity() else front.AvgVelocity();
      if c.distanceKm > 0.0 then
        MinVelocityNeverShorter(c.distanceKm, v.AvgVelocity(), front.AvgVelocity());
        MinVelocityNeverShorter(c.distanceKm, front.AvgVelocity(), v.AvgVelocity());
        TimeInSeconds(c.distanceKm, velocity)
      else
        TimeInSeconds(c.distanceKm, velocity)
  }

  /** `extTransition`: every queued timer is lowered by the elapsed time, the
      new vessel joins the tail, and the head's timer is scheduled.  Anything
      but a vessel on `in_vessel` is a fatal assertion. */
  function ExtTransition(c: Config, s: UniCanalState, e: real, inVessel: Option<Message>): (r: Result<UniCanalState>)
    requires Valid(s) && 0.0 <= e && s.remainingTime.AtLeast(e)
    ensures r.Ok? <==> inVessel.Some? && inVessel.value.VesselMsg?
    ensures r.Ok? ==> Valid(r.value)
    ensures r.Ok? ==> r.value.vessels == s.vessels + [inVessel.value.vessel]
    // the vessels already under way keep their absolute deadline
    ensures r.Ok? ==> forall i :: 0 <= i < |s.timers| ==> r.value.timers[i] + e == s.timers[i]
    ensures r.Ok? ==> r.value.timers[|s.timers|] == GetTimer(c, s, inVessel.value.vessel)
    // and so does the scheduled departure of the head
    ensures r.Ok? && |s.vessels| > 0 ==> r.value.remainingTime.value + e == s.remainingTime.value
  {
    var lowered := Lower(s.timers, e);
    if inVessel.Some? && inVessel.value.VesselMsg? then
      var v := inVessel.value.vessel;
      var timers := lowered + [GetTimer(c, s, v)];
      Ok(UniCanalState(Fin(timers[0]), s.vessels + [v], timers))
    else
      Err("extTransition: input is not a vessel")
  }

  /** `outputFnc`: always the head of the queue. */
  function Output(s: UniCanalState): (r: Result<Vessel>)
    ensures r.Ok? <==> |s.vessels| > 0
    ensures r.Ok? ==> r.value == s.vessels[0]
  {
    if |s.vessels| > 0 then Ok(s.vessels[0]) else Err("outputFnc: empty canal")
  }

  /** `intTransition`: the head and its timer leave; the remaining timers are
      lowered by the time that just passed and the new head is scheduled, or
      the canal becomes passive. */
  function IntTransition(s: UniCanalState): (r: Result<UniCanalState>)
    requires Valid(s)
    ensures r.Ok? <==> |s.vessels| > 0
    ensures r.Ok? ==> Valid(r.value) && r.value.vessels == s.vessels[1..]
    ensures r.Ok? ==> forall i :: 0 <= i < |r.value.timers| ==>
              r.value.timers[i] + s.remainingTime.value == s.timers[i + 1]
  {
    if |s.vessels| == 0 then Err("intTransition: pop from empty list")
    else
      var vessels := s.vessels[1..];
      var popped := s.timers[1..];
      if |vessels| == 0 then Ok(UniCanalState(Inf, vessels, popped))
      else
        var timers := Lower(popped, s.remainingTime.value);
        Ok(UniCanalState(Fin(timers[0]), vessels, timers))
  }

  // -----------------------------------------------------------------------
  // A one-component replay: the kernel feeds arrivals after a given elapsed
  // time, or lets the component fire when its time advance expires.

  datatype Event = Arrive(elapsed: real, vessel: Vessel) | Fire

  /** A vessel leaving the canal at absolute time `time`. */
  datatype Departure = Departure(time: real, vessel: Vessel)

  function Arrivals(evs: seq<Event>): seq<Vessel> {
    if |evs| == 0 then []
    else (if evs[0].Arrive? then [evs[0].vessel] else []) + Arrivals(evs[1..])
  }

  function Departed(ds: seq<Departure>): (vs: seq<Vessel>)
    ensures |vs| == |ds| && forall i :: 0 <= i < |ds| ==> vs[i] == ds[i].vessel
  {
    seq(|ds|, i requires 0 <= i < |ds| => ds[i].vessel)
  }

  /** One kernel step at absolute time `now`: an arrival after `elapsed`, or
      the component firing when its time advance expires (output, then
      internal transition).  `None` when the kernel could not produce the
      step: an elapsed time beyond the time advance, or a firing while
      passive.  Whatever leaves is the head, whatever arrives joins the tail. */
  function Step(c: Config, s: UniCanalState, now: real, ev: Event): (r: Option<(UniCanalState, real, seq<Departure>)>)
    requires Valid(s)
    ensures r.Some? ==> Valid(r.value.0)
    ensures r.Some? ==> Departed(r.value.2) + r.value.0.vessels
                        == s.vessels + (if ev.Arrive? then [ev.vessel] else [])
  {
    match ev
    case Arrive(e, v) =>
      if 0.0 <= e && s.remainingTime.AtLeast(e) then
        Some((ExtTransition(c, s, e, Some(VesselMsg(v))).value, now + e, []))
      else None
    case Fire =>
      if s.remainingTime.Fin? then
        var t := now + s.remainingTime.value;
        var s' := IntTransition(s).value;
        assert s.vessels == [s.vessels[0]] + s'.vessels;
        Some((s', t, [Departure(t, Output(s).value)]))
      else None
  }

  /** Replays `evs` from state `s` at absolute time `now`, collecting the
      departures with their absolute times. */
  function Run(c: Config, s: UniCanalState, now: real, evs: seq<Event>): Option<(UniCanalState, seq<Departure>)>
    requires Valid(s)
    decreases |evs|
  {
    if |evs| == 0 then Some((s, []))
    else match Step(c, s, now, evs[0])
      case None => None
      case Some((s', t, ds)) =>
        match Run(c, s', t, evs[1..])
        case None => None
        case Some((fin, ds')) => Some((fin, ds + ds'))
  }

  /** FIFO: over any legal schedule, the vessels that left, followed by the
      vessels still inside, are exactly the vessels that were inside at the
      start followed by the arrivals, in order. */
  lemma {:induction false} RunIsFifo(c: Config, s: UniCanalState, now: real, evs: seq<Event>)
    requires Valid(s)
    ensures Run(c, s, now, evs).Some? ==>
              Departed(Run(c, s, now, evs).value.1) + Run(c, s, now, evs).value.0.vessels
              == s.vessels + Arrivals(evs)
    decreases |evs|
  {
    if |evs| > 0 && Run(c, s, now, evs).Some? {
      var step := Step(c, s, now, evs[0]).value;
      var rest := Run(c, step.0, step.1, evs[1..]).value;
      RunIsFifo(c, step.0, step.1, evs[1..]);
      var arrived := if evs[0].Arrive? then [evs[0].vessel] else [];
      assert Arrivals(evs) == arrived + Arrivals(evs[1..]);
      assert Departed(step.2 + rest.1) == Departed(step.2) + Departed(rest.1);
      FifoCompose(s.vessels, Departed(step.2), step.0.vessels, arrived,
                  Departed(rest.1), rest.0.vessels, Arrivals(evs[1..]));
    }
  }

  /** Unfolds `Run` by one step. */
  lemma RunStep(c: Config, s: UniCanalState, now: real, ev: Event, rest: seq<Event>,
                s': UniCanalState, t: real, ds: seq<Departure>, fin: UniCanalState, ds': seq<Departure>)
    requires Valid(s)
    requires Step(c, s, now, ev) == Some((s', t, ds))
    requires Run(c, s', t, rest) == Some((fin, ds'))
    ensures Run(c, s, now, [ev] + rest) == Some((fin, ds + ds'))
  {
    assert ([ev] + rest)[0] == ev && ([ev] + rest)[1..] == rest;
  }

  /** An arrival step computed from its resulting timers. */
  lemma ArriveStep(c: Config, s: UniCanalState, now: real, e: real, v: Vessel, timers: seq<real>)
    requires Valid(s) && 0.0 <= e && s.remainingTime.AtLeast(e)
    requires |timers| == |s.timers| + 1
    requires forall i :: 0 <= i < |s.timers| ==> timers[i] + e == s.timers[i]
    requires timers[|s.timers|] == GetTimer(c, s, v)
    ensures Step(c, s, now, Arrive(e, v)) == Some((UniCanalState(Fin(timers[0]), s.vessels + [v], timers), now + e, []))
  {
    var r := ExtTransition(c, s, e, Some(VesselMsg(v))).value;
    assert r.timers == timers;
  }

  /** A firing step computed from its resulting timers. */
  lemma FireStep(c: Config, s: UniCanalState, now: real, timers: seq<real>)
    requires Valid(s) && |s.vessels| > 1
    requires |timers| == |s.timers| - 1
    requires forall i :: 0 <= i < |timers| ==> timers[i] + s.remainingTime.value == s.timers[i + 1]
    ensures Step(c, s, now, Fire)
         == Some((UniCanalState(Fin(timers[0]), s.vessels[1..], timers),
                  now + s.remainingTime.value,
                  [Departure(now + s.remainingTime.value, s.vessels[0])]))
  {
    var r := IntTransition(s).value;
    assert r.timers == timers;
  }

  // The speed-coupling experiment: a Crude Oil Tanker enters a 19.8164 km
  // canal at t = 0 and a faster Bulk Carrier follows at t = 10.

  function ExperimentCanal(): Config { Config(19.8164) }
  function Tanker(): Vessel { NewVessel(CrudeOilTanker, 0, 0.0) }
  function Carrier(): Vessel { NewVessel(BulkCarrier, 1, 10.0) }

  function TankerInside(): UniCanalState { UniCanalState(Fin(3600.0), [Tanker()], [3600.0]) }

  lemma TankerArrives()
    ensures Step(ExperimentCanal(), Initial(), 0.0, Arrive(0.0, Tanker())) == Some((TankerInside(), 0.0, []))
  {
    assert Initial().vessels + [Tanker()] == TankerInside().vessels;
    CalibrationDistances();
    ArriveStep(ExperimentCanal(), Initial(), 0.0, 0.0, Tanker(), [3600.0]);
  }

  lemma CarrierArrives()
    ensures Step(ExperimentCanal(), TankerInside(), 0.0, Arrive(10.0, Carrier()))
         == Some((UniCanalState(Fin(3590.0), [Tanker(), Carrier()], [3590.0, 3600.0]), 10.0, []))
  {
    assert TankerInside().vessels + [Carrier()] == [Tanker(), Carrier()];
    CalibrationDistances();
    assert GetTimer(ExperimentCanal(), TankerInside(), Carrier()) == 3600.0;
    ArriveStep(ExperimentCanal(), TankerInside(), 0.0, 10.0, Carrier(), [3590.0, 3600.0]);
  }

  lemma CouplingArrivals()
    ensures Step(ExperimentCanal(), Initial(), 0.0, Arrive(0.0, Tanker())) == Some((TankerInside(), 0.0, []))
    ensures Step(ExperimentCanal(), TankerInside(), 0.0, Arrive(10.0, Carrier()))
         == Some((UniCanalState(Fin(3590.0), [Tanker(), Carrier()], [3590.0, 3600.0]), 10.0, []))
  {
    TankerArrives();
    CarrierArrives();
  }

  lemma CouplingDepartures()
    ensures Run(ExperimentCanal(), UniCanalState(Fin(3590.0), [Tanker(), Carrier()], [3590.0, 3600.0]), 10.0, [Fire, Fire])
         == Some((Initial(), [Departure(3600.0, Tanker()), Departure(3610.0, Carrier())]))
  {
    var c := ExperimentCanal();
    var s2 := UniCanalState(Fin(3590.0), [Tanker(), Carrier()], [3590.0, 3600.0]);
    var s3 := UniCanalState(Fin(10.0), [Carrier()], [10.0]);
    var d1 := [Departure(3600.0, Tanker())];
    var d2 := [Departure(3610.0, Carrier())];
    FireStep(c, s2, 10.0, [10.0]);
    assert s2.vessels[1..] == [Carrier()];
    assert Step(c, s3, 3600.0, Fire) == Some((Initial(), 3610.0, d2));
    RunStep(c, s3, 3600.0, Fire, [], Initial(), 3610.0, d2, Initial(), []);
    assert d2 + [] == d2;
    RunStep(c, s2, 10.0, Fire, [Fire], s3, 3600.0, d1, Initial(), d2);
    assert [Fire] + [Fire] == [Fire, Fire];
    assert d1 + d2 == [Departure(3600.0, Tanker()), Departure(3610.0, Carrier())];
  }

  /** Speed coupling, as in the source's experiment: both vessels spend
      exactly 3600 s in the canal, the carrier being held to the tanker's
      10.7 knots instead of making the trip in 3210 s. */
  lemma SpeedCouplingScenario()
    ensures Run(ExperimentCanal(), Initial(), 0.0, [Arrive(0.0, Tanker()), Arrive(10.0, Carrier()), Fire, Fire])
         == Some((Initial(), [Departure(3600.0, Tanker()), Departure(3610.0, Carrier())]))
  {
    var c := ExperimentCanal();
    var s1 := UniCanalState(Fin(3600.0), [Tanker()], [3600.0]);
    var s2 := UniCanalState(Fin(3590.0), [Tanker(), Carrier()], [3590.0, 3600.0]);
    var ds := [Departure(3600.0, Tanker()), Departure(3610.0, Carrier())];
    CouplingArrivals();
    CouplingDepartures();
    RunStep(c, s1, 0.0, Arrive(10.0, Carrier()), [Fire, Fire], s2, 10.0, [], Initial(), ds);
    assert [] + ds == ds;
    RunStep(c, Initial(), 0.0, Arrive(0.0, Tanker()), [Arrive(10.0, Carrier()), Fire, Fire], s1, 0.0, [], Initial(), ds);
  }

  // Coupling only to the vessel directly in front: a Small Cargo Freighter
  // (6.4 kn) and then two Bulk Carriers (12 kn) enter at t = 0.

  function Freighter(): Vessel { NewVessel(SmallCargoFreighter, 0, 0.0) }
  function FirstCarrier(): Vessel { NewVessel(BulkCarrier, 1, 0.0) }
  function SecondCarrier(): Vessel { NewVessel(BulkCarrier, 2, 0.0) }

  /** An external transition computed from its resulting timers. */
  lemma ExtResult(c: Config, s: UniCanalState, e: real, v: Vessel, timers: seq<real>)
    requires Valid(s) && 0.0 <= e && s.remainingTime.AtLeast(e)
    requires |timers| == |s.timers| + 1
    requires forall i :: 0 <= i < |s.timers| ==> timers[i] + e == s.timers[i]
    requires timers[|s.timers|] == GetTimer(c, s, v)
    ensures ExtTransition(c, s, e, Some(VesselMsg(v))) == Ok(UniCanalState(Fin(timers[0]), s.vessels + [v], timers))
  {
    var r := ExtTransition(c, s, e, Some(VesselMsg(v))).value;
    assert r.timers == timers;
  }

  function AfterFreighter(): UniCanalState {
    UniCanalState(Fin(6018.75), [Freighter()], [6018.75])
  }

  function AfterFirstCarrier(): UniCanalState {
    UniCanalState(Fin(6018.75), [Freighter(), FirstCarrier()], [6018.75, 6018.75])
  }

  function AfterSecondCarrier(): UniCanalState {
    UniCanalState(Fin(6018.75), [Freighter(), FirstCarrier(), SecondCarrier()], [6018.75, 6018.75, 3210.0])
  }

  lemma FreighterEnters()
    ensures ExtTransition(ExperimentCanal(), Initial(), 0.0, Some(VesselMsg(Freighter()))) == Ok(AfterFreighter())
  {
    CalibrationDistances();
    assert TimeInSeconds(19.8164, 6.4) == 6018.75;
    ExtResult(ExperimentCanal(), Initial(), 0.0, Freighter(), [6018.75]);
    assert Initial().vessels + [Freighter()] == AfterFreighter().vessels;
  }

  lemma FirstCarrierEnters()
    ensures ExtTransition(ExperimentCanal(), AfterFreighter(), 0.0, Some(VesselMsg(FirstCarrier())))
         == Ok(AfterFirstCarrier())
  {
    CalibrationDistances();
    assert TimeInSeconds(19.8164, 6.4) == 6018.75;
    assert GetTimer(ExperimentCanal(), AfterFreighter(), FirstCarrier()) == 6018.75;
    ExtResult(ExperimentCanal(), AfterFreighter(), 0.0, FirstCarrier(), [6018.75, 6018.75]);
    assert AfterFreighter().vessels + [FirstCarrier()] == AfterFirstCarrier().vessels;
  }

  /** The second carrier is coupled to the first carrier's 12 knots only. */
  lemma SecondCarrierEnters()
    ensures ExtTransition(ExperimentCanal(), AfterFirstCarrier(), 0.0, Some(VesselMsg(SecondCarrier())))
         == Ok(AfterSecondCarrier())
  {
    CalibrationDistances();
    assert GetTimer(ExperimentCanal(), AfterFirstCarrier(), SecondCarrier()) == 3210.0;
    ExtResult(ExperimentCanal(), AfterFirstCarrier(), 0.0, SecondCarrier(), [6018.75, 6018.75, 3210.0]);
    assert AfterFirstCarrier().vessels + [SecondCarrier()] == AfterSecondCarrier().vessels;
  }

  /** Coupling only to the vessel directly in front lets a later vessel
      undercut an earlier one: after the freighter and the first carrier have
      left, the time advance of the canal is negative. */
  lemma NegativeTimeAdvanceScenario()
    ensures
      var s1 := ExtTransition(ExperimentCanal(), Initial(), 0.0, Some(VesselMsg(Freighter())));
      s1.Ok? &&
      var s2 := ExtTransition(ExperimentCanal(), s1.value, 0.0, Some(VesselMsg(FirstCarrier())));
      s2.Ok? &&
      var s3 := ExtTransition(ExperimentCanal(), s2.value, 0.0, Some(VesselMsg(SecondCarrier())));
      s3.Ok? &&
      var s4 := IntTransition(s3.value);
      s4.Ok? &&
      var s5 := IntTransition(s4.value);
      s5.Ok? && s5.value.remainingTime == Fin(-2808.75)
  {
    FreighterEnters();
    FirstCarrierEnters();
    SecondCarrierEnters();
    var s4 := IntTransition(AfterSecondCarrier()).value;
    assert s4.timers == [0.0, -2808.75];
    assert IntTransition(s4).value.timers == [-2808.75];
  }
}
