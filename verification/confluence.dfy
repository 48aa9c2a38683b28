/** models/confluence.py: where waterways meet.  Every arriving vessel is
    given the travel time to the next place on the route towards its
    destination dock, and the vessels leave in order of their timers on the
    out-port of that route.  The functions named `...AsWritten` follow the
    source line by line; the others are the corrected component. */
module Confluence {
  import opened Wrappers
  import opened Devs
  import opened Units
  import opened Vessels
  import opened Messages
  import opened Timers

  /** `ConfluenceInfoRecord`: a route of length `distanceKm` serving the
      listed docks, reached through the out-port `portName`. */
  datatype ConfluenceInfoRecord = ConfluenceInfoRecord(distanceKm: real, docks: seq<string>, portName: string)

  /** `confluence_info`, in list order. */
  datatype Config = Config(info: seq<ConfluenceInfoRecord>)

  /** The first record, in list order, whose docks contain `dest`.  A vessel
      without destination matches no record. */
  function FindRecord(info: seq<ConfluenceInfoRecord>, dest: Option<string>): (k: Option<nat>)
    ensures k.None? <==> dest.None? || forall i :: 0 <= i < |info| ==> dest.value !in info[i].docks
    ensures k.Some? ==> k.value < |info| && dest.Some? && dest.value in info[k.value].docks
    ensures k.Some? ==> forall i :: 0 <= i < k.value ==> dest.value !in info[i].docks
  {
    if dest.None? || |info| == 0 then None
    else if dest.value in info[0].docks then Some(0)
    else
      var k := FindRecord(info[1..], dest);
      if k.None? then None else Some(k.value + 1)
  }

  /** The out-port of the first route serving `v`'s destination. */
  function RouteOf(cfg: Config, v: Vessel): (p: Option<string>)
    ensures p.Some? <==> FindRecord(cfg.info, v.destinationDock).Some?
    ensures p.Some? ==> p.value == cfg.info[FindRecord(cfg.info, v.destinationDock).value].portName
  {
    match FindRecord(cfg.info, v.destinationDock)
    case None => None
    case Some(k) => Some(cfg.info[k].portName)
  }

  /** The travel time of `v` along route `k`.  The source calls a
      `get_time_in_seconds` method that `Vessel` does not define; it is read
      here as the unit conversion at the vessel's average velocity. */
  function TravelTime(cfg: Config, k: nat, v: Vessel): (t: real)
    requires k < |cfg.info|
    ensures t * (KmhPerKnot * v.AvgVelocity()) == cfg.info[k].distanceKm * SecondsPerHour
  {
    ClassConstantsAreSane(v.vesselClass);
    TimeInSeconds(cfg.info[k].distanceKm, v.AvgVelocity())
  }

  // -----------------------------------------------------------------------
  // As written.

  /** One `[vessel, timer]` entry of `vessel_timer_pairs`. */
  datatype VesselTimer = VesselTimer(vessel: Vessel, timer: real)

  function TimerOf(p: VesselTimer): real { p.timer }

  /** `ConfluenceState`, one per component (the source's class-level
      defaults would share the list between instances). */
  datatype ConfluenceState = ConfluenceState(
    remainingTime: Time,
    vesselTimerPairs: seq<VesselTimer>,
    outputPortForNextVessel: Option<string>)

  function InitialAsWritten(): (s: ConfluenceState)
    ensures s.remainingTime == Inf && s.vesselTimerPairs == [] && s.outputPortForNextVessel.None?
  {
    ConfluenceState(Inf, [], None)
  }

  function LowerPairs(ps: seq<VesselTimer>, d: real): (r: seq<VesselTimer>)
    ensures |r| == |ps|
    ensures forall i :: 0 <= i < |ps| ==> r[i].vessel == ps[i].vessel && r[i].timer + d == ps[i].timer
  {
    seq(|ps|, i requires 0 <= i < |ps| => VesselTimer(ps[i].vessel, ps[i].timer - d))
  }

  /** `schedule_by_smallest_timer`: a stable sort by timer, then the first
      timer is scheduled; an empty list raises an index error. */
  function ScheduleBySmallestTimer(s: ConfluenceState): (r: Result<ConfluenceState>)
    ensures r.Ok? <==> |s.vesselTimerPairs| > 0
    ensures r.Ok? ==> r.value.vesselTimerPairs == SortByKey(s.vesselTimerPairs, TimerOf)
    ensures r.Ok? ==> SortedBy(r.value.vesselTimerPairs, TimerOf)
    ensures r.Ok? ==> multiset(r.value.vesselTimerPairs) == multiset(s.vesselTimerPairs)
    ensures r.Ok? ==> r.value.remainingTime == Fin(r.value.vesselTimerPairs[0].timer)
    ensures r.Ok? ==> r.value.outputPortForNextVessel == s.outputPortForNextVessel
  {
    var sorted := SortByKey(s.vesselTimerPairs, TimerOf);
    if |sorted| == 0 then Err("schedule_by_smallest_timer: list index out of range")
    else Ok(s.(vesselTimerPairs := sorted, remainingTime := Fin(sorted[0].timer)))
  }

  /** `extTransition` as written: the new pair is appended BEFORE the
      elapsed time is subtracted, so the new vessel's own travel time is
      shortened by the time since the previous event; then the list is
      sorted and the port of the new vessel's route becomes THE port for the
      next departure, whichever vessel that is. */
  function ExtTransitionAsWritten(cfg: Config, s: ConfluenceState, e: real, inVessel: Option<Message>): (r: Result<ConfluenceState>)
    requires 0.0 <= e && s.remainingTime.AtLeast(e)
    ensures inVessel.None? ==> r == Ok(s)
    ensures inVessel.Some? ==>
              (r.Ok? <==> inVessel.value.VesselMsg? && FindRecord(cfg.info, inVessel.value.vessel.destinationDock).Some?)
    ensures inVessel.Some? && r.Ok? ==>
              var v := inVessel.value.vessel;
              var k := FindRecord(cfg.info, v.destinationDock).value;
              && r.value.outputPortForNextVessel == Some(cfg.info[k].portName)
              && r.value.vesselTimerPairs
                 == SortByKey(LowerPairs(s.vesselTimerPairs + [VesselTimer(v, TravelTime(cfg, k, v))], e), TimerOf)
              && r.value.remainingTime == Fin(r.value.vesselTimerPairs[0].timer)
  {
    if inVessel.None? then Ok(s)
    else if !inVessel.value.VesselMsg? then Err("extTransition: input has no destination_dock")
    else
      var v := inVessel.value.vessel;
      match FindRecord(cfg.info, v.destinationDock)
      case None => Err("extTransition: no route to the destination dock (StopIteration)")
      case Some(k) =>
        var appended := s.vesselTimerPairs + [VesselTimer(v, TravelTime(cfg, k, v))];
        var scheduled := ScheduleBySmallestTimer(s.(vesselTimerPairs := LowerPairs(appended, e))).value;
        Ok(scheduled.(outputPortForNextVessel := Some(cfg.info[k].portName)))
  }

  /** `outputFnc` as written: the first pair's vessel on the stored port;
      no stored port fails the source's assertion. */
  function OutputAsWritten(s: ConfluenceState): (r: Result<(string, Vessel)>)
    ensures r.Ok? <==> s.outputPortForNextVessel.Some? && |s.vesselTimerPairs| > 0
    ensures r.Ok? ==> r == Ok((s.outputPortForNextVessel.value, s.vesselTimerPairs[0].vessel))
  {
    if s.outputPortForNextVessel.None? then Err("outputFnc: no output port")
    else if |s.vesselTimerPairs| == 0 then Err("outputFnc: list index out of range")
    else Ok((s.outputPortForNextVessel.value, s.vesselTimerPairs[0].vessel))
  }

  /** `intTransition` as written, together with the removal and the port
      clearing that `outputFnc` performs: the remaining pairs are re-sorted
      but NOT lowered by the time that passed, and an empty list raises an
      index error. */
  function IntTransitionAsWritten(s: ConfluenceState): (r: Result<ConfluenceState>)
    ensures r.Ok? <==> |s.vesselTimerPairs| > 1
    ensures r.Ok? ==> r.value.outputPortForNextVessel.None?
    ensures r.Ok? ==> r.value.vesselTimerPairs == SortByKey(s.vesselTimerPairs[1..], TimerOf)
    ensures r.Ok? ==> r.value.remainingTime == Fin(r.value.vesselTimerPairs[0].timer)
  {
    if |s.vesselTimerPairs| == 0 then Err("outputFnc: pop from empty list")
    else ScheduleBySmallestTimer(s.(vesselTimerPairs := s.vesselTimerPairs[1..], outputPortForNextVessel := None))
  }

  // -----------------------------------------------------------------------
  // Corrected: every vessel carries the port of its own route, elapsed time
  // is subtracted from the pairs already present only, the internal
  // transition subtracts the time that passed, and an empty confluence is
  // passive.

  /** A waiting vessel, its timer and the out-port of its route. */
  datatype Routed = Routed(vessel: Vessel, timer: real, port: string)

  function RoutedTimer(p: Routed): real { p.timer }

  datatype RoutedState = RoutedState(remainingTime: Time, pairs: seq<Routed>)

  /** Sorted by timer, passive exactly when empty, and otherwise scheduled at
      the smallest timer. */
  ghost predicate Valid(s: RoutedState) {
    && SortedBy(s.pairs, RoutedTimer)
    && (|s.pairs| == 0 <==> s.remainingTime.Inf?)
    && (|s.pairs| > 0 ==> s.remainingTime == Fin(s.pairs[0].timer))
  }

  /** Every waiting vessel carries the port of the first route serving its
      destination. */
  predicate RoutesAgree(cfg: Config, s: RoutedState) {
    forall i :: 0 <= i < |s.pairs| ==> RouteOf(cfg, s.pairs[i].vessel) == Some(s.pairs[i].port)
  }

  function Initial(): (s: RoutedState)
    ensures Valid(s) && s.pairs == []
  {
    RoutedState(Inf, [])
  }

  function LowerRouted(ps: seq<Routed>, d: real): (r: seq<Routed>)
    ensures |r| == |ps|
    ensures forall i :: 0 <= i < |ps| ==>
              r[i].vessel == ps[i].vessel && r[i].port == ps[i].port && r[i].timer + d == ps[i].timer
  {
    seq(|ps|, i requires 0 <= i < |ps| => Routed(ps[i].vessel, ps[i].timer - d, ps[i].port))
  }

  /** Sort and schedule; an empty list makes the confluence passive. */
  function Schedule(ps: seq<Routed>): (r: RoutedState)
    ensures Valid(r)
    ensures r.pairs == SortByKey(ps, RoutedTimer)
    ensures multiset(r.pairs) == multiset(ps)
  {
    var sorted := SortByKey(ps, RoutedTimer);
    if |sorted| == 0 then RoutedState(Inf, sorted) else RoutedState(Fin(sorted[0].timer), sorted)
  }

  lemma {:induction false} RoutesAgreeOnPermutation(cfg: Config, ps: seq<Routed>, qs: seq<Routed>)
    requires multiset(ps) == multiset(qs)
    ensures RoutesAgree(cfg, RoutedState(Inf, ps)) ==> RoutesAgree(cfg, RoutedState(Inf, qs))
  {
    if RoutesAgree(cfg, RoutedState(Inf, ps)) {
      forall i | 0 <= i < |qs|
        ensures RouteOf(cfg, qs[i].vessel) == Some(qs[i].port)
      {
        assert qs[i] in multiset(qs);
        assert qs[i] in ps;
      }
    }
  }

  lemma {:induction false} JoinedRoutesAgree(cfg: Config, s: RoutedState, e: real, v: Vessel, k: nat)
    requires FindRecord(cfg.info, v.destinationDock) == Some(k)
    ensures RoutesAgree(cfg, s) ==>
              RoutesAgree(cfg, RoutedState(Inf, LowerRouted(s.pairs, e) + [Routed(v, TravelTime(cfg, k, v), cfg.info[k].portName)]))
  {
    var joined := LowerRouted(s.pairs, e) + [Routed(v, TravelTime(cfg, k, v), cfg.info[k].portName)];
    if RoutesAgree(cfg, s) {
      forall i | 0 <= i < |joined|
        ensures RouteOf(cfg, joined[i].vessel) == Some(joined[i].port)
      {
        if i < |s.pairs| {
          assert joined[i].vessel == s.pairs[i].vessel && joined[i].port == s.pairs[i].port;
        }
      }
    }
  }

  /** `extTransition`, corrected: the pairs already waiting are lowered by
      the elapsed time (keeping their absolute deadlines), the new vessel
      joins with its full travel time and the port of its own route, and
      the list is sorted by timer. */
  function ExtTransition(cfg: Config, s: RoutedState, e: real, inVessel: Option<Message>): (r: Result<RoutedState>)
    requires Valid(s) && 0.0 <= e && s.remainingTime.AtLeast(e)
    ensures inVessel.None? ==> r == Ok(s)
    ensures inVessel.Some? ==>
              (r.Ok? <==> inVessel.value.VesselMsg? && FindRecord(cfg.info, inVessel.value.vessel.destinationDock).Some?)
    ensures r.Ok? ==> Valid(r.value)
    ensures inVessel.Some? && r.Ok? ==>
              var v := inVessel.value.vessel;
              var k := FindRecord(cfg.info, v.destinationDock).value;
              multiset(r.value.pairs)
              == multiset(LowerRouted(s.pairs, e)) + multiset{Routed(v, TravelTime(cfg, k, v), cfg.info[k].portName)}
    ensures r.Ok? && RoutesAgree(cfg, s) ==> RoutesAgree(cfg, r.value)
  {
    if inVessel.None? then Ok(s)
    else if !inVessel.value.VesselMsg? then Err("extTransition: input has no destination_dock")
    else
      var v := inVessel.value.vessel;
      match FindRecord(cfg.info, v.destinationDock)
      case None => Err("extTransition: no route to the destination dock")
      case Some(k) =>
        var joined := LowerRouted(s.pairs, e) + [Routed(v, TravelTime(cfg, k, v), cfg.info[k].portName)];
        var r := Schedule(joined);
        JoinedRoutesAgree(cfg, s, e, v, k);
        RoutesAgreeOnPermutation(cfg, joined, r.pairs);
        Ok(r)
  }

  /** `outputFnc`, corrected: the vessel with the smallest timer, on the
      port it carries. */
  function Output(s: RoutedState): (r: Result<(string, Vessel)>)
    ensures r.Ok? <==> |s.pairs| > 0
    ensures r.Ok? ==> r.value == (s.pairs[0].port, s.pairs[0].vessel)
  {
    if |s.pairs| == 0 then Err("outputFnc: nothing to send") else Ok((s.pairs[0].port, s.pairs[0].vessel))
  }

  /** A vessel always leaves on the port of the first route serving its own
      destination, whichever vessel arrived last. */
  lemma {:induction false} DispatchFollowsOwnRoute(cfg: Config, s: RoutedState)
    requires RoutesAgree(cfg, s) && |s.pairs| > 0
    ensures Output(s).Ok?
    ensures RouteOf(cfg, Output(s).value.1) == Some(Output(s).value.0)
  {
    assert Output(s).value.1 == s.pairs[0].vessel;
  }

  /** `intTransition`, corrected, with the removal `outputFnc` performs: the
      vessel just sent leaves, the others are lowered by the time that
      passed and re-sorted, or the confluence becomes passive. */
  lemma {:induction false} RestRoutesAgree(cfg: Config, s: RoutedState)
    requires |s.pairs| > 0 && s.remainingTime.Fin?
    ensures RoutesAgree(cfg, s) ==> RoutesAgree(cfg, RoutedState(Inf, LowerRouted(s.pairs[1..], s.remainingTime.value)))
  {
    var rest := LowerRouted(s.pairs[1..], s.remainingTime.value);
    if RoutesAgree(cfg, s) {
      forall i | 0 <= i < |rest|
        ensures RouteOf(cfg, rest[i].vessel) == Some(rest[i].port)
      {
        assert rest[i].vessel == s.pairs[i + 1].vessel && rest[i].port == s.pairs[i + 1].port;
      }
    }
  }

  function IntTransition(cfg: Config, s: RoutedState): (r: Result<RoutedState>)
    requires Valid(s)
    ensures r.Ok? <==> |s.pairs| > 0
    ensures r.Ok? ==> Valid(r.value)
    ensures r.Ok? ==> multiset(r.value.pairs) == multiset(LowerRouted(s.pairs[1..], s.remainingTime.value))
    ensures r.Ok? && |s.pairs| == 1 ==> r.value.remainingTime == Inf
    ensures r.Ok? && RoutesAgree(cfg, s) ==> RoutesAgree(cfg, r.value)
  {
    if |s.pairs| == 0 then Err("outputFnc: nothing was sent")
    else
      var rest := LowerRouted(s.pairs[1..], s.remainingTime.value);
      var r := Schedule(rest);
      RestRoutesAgree(cfg, s);
      RoutesAgreeOnPermutation(cfg, rest, r.pairs);
      Ok(r)
  }

  // -----------------------------------------------------------------------
  // The confluence experiment: route 1 (19.8164 km, docks "1" and "2") and
  // route 2 (39.6328 km, docks "3" and "4"); a Crude Oil Tanker bound for
  // dock "4" arrives first and one bound for dock "1" an hour later.  Both
  // should reach the collectors two hours after the first arrival.  The
  // experiment's generator emits them at t = 1 and t = 3601; here t is
  // counted from the first arrival, which is fed with elapsed time 0.

  const Out1: string := "out_vessel_1"
  const Out2: string := "out_vessel_2"

  function ExperimentConfluence(): Config {
    Config([ConfluenceInfoRecord(19.8164, ["1", "2"], Out1), ConfluenceInfoRecord(39.6328, ["3", "4"], Out2)])
  }

  function BoundFor(uid: int, creationTime: real, dock: string): Vessel {
    NewVessel(CrudeOilTanker, uid, creationTime).(destinationDock := Some(dock))
  }

  function EarlyTanker(): Vessel { BoundFor(0, 0.0, "4") }
  function LateTanker(): Vessel { BoundFor(3600, 3600.0, "1") }

  /** The two routes of the experiment and their travel times for a tanker. */
  lemma ExperimentRoutes(uid: int, t: real)
    ensures FindRecord(ExperimentConfluence().info, Some("1")) == Some(0)
    ensures FindRecord(ExperimentConfluence().info, Some("4")) == Some(1)
    ensures TravelTime(ExperimentConfluence(), 0, BoundFor(uid, t, "1")) == 3600.0
    ensures TravelTime(ExperimentConfluence(), 1, BoundFor(uid, t, "4")) == 7200.0
    ensures RouteOf(ExperimentConfluence(), BoundFor(uid, t, "1")) == Some(Out1)
    ensures RouteOf(ExperimentConfluence(), BoundFor(uid, t, "4")) == Some(Out2)
  {
    var info := ExperimentConfluence().info;
    assert "1" in info[0].docks;
    assert "4" !in info[0].docks && "4" in info[1].docks;
    CalibrationDistances();
  }

  // As written.

  /** One as-written arrival, given its lowered and its sorted list. */
  lemma ExtAsWrittenStep(cfg: Config, s: ConfluenceState, e: real, v: Vessel, k: nat,
                         lowered: seq<VesselTimer>, sorted: seq<VesselTimer>)
    requires 0.0 <= e && s.remainingTime.AtLeast(e)
    requires FindRecord(cfg.info, v.destinationDock) == Some(k)
    requires LowerPairs(s.vesselTimerPairs + [VesselTimer(v, TravelTime(cfg, k, v))], e) == lowered
    requires SortByKey(lowered, TimerOf) == sorted && |sorted| > 0
    ensures ExtTransitionAsWritten(cfg, s, e, Some(VesselMsg(v)))
         == Ok(ConfluenceState(Fin(sorted[0].timer), sorted, Some(cfg.info[k].portName)))
  {
  }

  /** One as-written internal transition, given the sorted rest. */
  lemma IntAsWrittenStep(s: ConfluenceState, sorted: seq<VesselTimer>)
    requires |s.vesselTimerPairs| > 1
    requires SortByKey(s.vesselTimerPairs[1..], TimerOf) == sorted
    ensures IntTransitionAsWritten(s) == Ok(ConfluenceState(Fin(sorted[0].timer), sorted, None))
  {
  }

  const AsWrittenEarly: ConfluenceState := ConfluenceState(Fin(7200.0), [VesselTimer(EarlyTanker(), 7200.0)], Some(Out2))

  lemma EarlyTankerEntersAsWritten()
    ensures ExtTransitionAsWritten(ExperimentConfluence(), InitialAsWritten(), 0.0, Some(VesselMsg(EarlyTanker())))
         == Ok(AsWrittenEarly)
  {
    ExperimentRoutes(0, 0.0);
    var joined := [VesselTimer(EarlyTanker(), 7200.0)];
    var lowered := LowerPairs(InitialAsWritten().vesselTimerPairs + joined, 0.0);
    assert |lowered| == 1 && lowered[0] == joined[0];
    assert lowered == joined;
    SortSmall(joined[0], joined[0], TimerOf);
    ExtAsWrittenStep(ExperimentConfluence(), InitialAsWritten(), 0.0, EarlyTanker(), 1, joined, joined);
  }

  /** A vessel alone in the confluence is sent on its route, after which the
      schedule of the empty list fails. */
  lemma {:induction false} LoneVesselCrashesAsWritten()
    ensures OutputAsWritten(AsWrittenEarly) == Ok((Out2, EarlyTanker()))
    ensures IntTransitionAsWritten(AsWrittenEarly).Err?
  {
    EarlyTankerEntersAsWritten();
  }

  const LateFirst: ConfluenceState :=
    ConfluenceState(Fin(0.0), [VesselTimer(LateTanker(), 0.0), VesselTimer(EarlyTanker(), 3600.0)], Some(Out1))

  lemma LateTankerEntersAsWritten()
    ensures ExtTransitionAsWritten(ExperimentConfluence(), AsWrittenEarly, 3600.0, Some(VesselMsg(LateTanker()))) == Ok(LateFirst)
  {
    ExperimentRoutes(3600, 3600.0);
    var appended := AsWrittenEarly.vesselTimerPairs + [VesselTimer(LateTanker(), 3600.0)];
    var lowered := LowerPairs(appended, 3600.0);
    assert appended[0] == VesselTimer(EarlyTanker(), 7200.0) && appended[1] == VesselTimer(LateTanker(), 3600.0);
    assert |lowered| == 2 && lowered[0] == VesselTimer(EarlyTanker(), 3600.0) && lowered[1] == VesselTimer(LateTanker(), 0.0);
    assert lowered == [VesselTimer(EarlyTanker(), 3600.0), VesselTimer(LateTanker(), 0.0)];
    SortSmall(lowered[0], lowered[1], TimerOf);
    ExtAsWrittenStep(ExperimentConfluence(), AsWrittenEarly, 3600.0, LateTanker(), 0, lowered, LateFirst.vesselTimerPairs);
  }

  /** The late tanker's travel time is lowered by the hour that passed
      before it arrived: it is scheduled to leave immediately, on its own
      route, although that route takes 3600 s. */
  lemma {:induction false} ArrivalIsLoweredToo()
    ensures ExtTransitionAsWritten(ExperimentConfluence(), AsWrittenEarly, 3600.0, Some(VesselMsg(LateTanker()))) == Ok(LateFirst)
    ensures OutputAsWritten(LateFirst) == Ok((Out1, LateTanker()))
  {
    LateTankerEntersAsWritten();
  }

  /** After the late tanker left, the stored port is gone: the early tanker
      is scheduled but its output fails, and so does the next schedule. */
  lemma {:induction false} SecondDispatchFails()
    ensures IntTransitionAsWritten(LateFirst) == Ok(ConfluenceState(Fin(3600.0), [VesselTimer(EarlyTanker(), 3600.0)], None))
    ensures OutputAsWritten(ConfluenceState(Fin(3600.0), [VesselTimer(EarlyTanker(), 3600.0)], None)).Err?
  {
    var rest := LateFirst.vesselTimerPairs[1..];
    assert rest == [VesselTimer(EarlyTanker(), 3600.0)];
    SortSmall(rest[0], rest[0], TimerOf);
    IntAsWrittenStep(LateFirst, rest);
  }

  function Companion(): Vessel { BoundFor(1, 0.0, "1") }

  const CompanionFirst: ConfluenceState :=
    ConfluenceState(Fin(3600.0), [VesselTimer(Companion(), 3600.0), VesselTimer(EarlyTanker(), 7200.0)], Some(Out1))

  lemma CompanionEntersAsWritten()
    ensures ExtTransitionAsWritten(ExperimentConfluence(), AsWrittenEarly, 0.0, Some(VesselMsg(Companion()))) == Ok(CompanionFirst)
  {
    ExperimentRoutes(1, 0.0);
    var appended := AsWrittenEarly.vesselTimerPairs + [VesselTimer(Companion(), 3600.0)];
    var lowered := LowerPairs(appended, 0.0);
    assert appended[0] == VesselTimer(EarlyTanker(), 7200.0) && appended[1] == VesselTimer(Companion(), 3600.0);
    assert |lowered| == 2 && lowered[0] == appended[0] && lowered[1] == appended[1];
    assert lowered == [VesselTimer(EarlyTanker(), 7200.0), VesselTimer(Companion(), 3600.0)];
    SortSmall(lowered[0], lowered[1], TimerOf);
    ExtAsWrittenStep(ExperimentConfluence(), AsWrittenEarly, 0.0, Companion(), 0, lowered, CompanionFirst.vesselTimerPairs);
  }

  /** Both tankers arrive at t = 0; the dock-"1" tanker leaves at t = 3600,
      and the dock-"4" tanker is then given its full 7200 s again instead of
      the 3600 s it has left. */
  lemma {:induction false} RemainingVesselIsDelayed()
    ensures ExtTransitionAsWritten(ExperimentConfluence(), AsWrittenEarly, 0.0, Some(VesselMsg(Companion()))) == Ok(CompanionFirst)
    ensures IntTransitionAsWritten(CompanionFirst) == Ok(ConfluenceState(Fin(7200.0), [VesselTimer(EarlyTanker(), 7200.0)], None))
  {
    CompanionEntersAsWritten();
    var rest := CompanionFirst.vesselTimerPairs[1..];
    assert rest == [VesselTimer(EarlyTanker(), 7200.0)];
    SortSmall(rest[0], rest[0], TimerOf);
    IntAsWrittenStep(CompanionFirst, rest);
  }

  function Latecomer(): Vessel { BoundFor(2, 10.0, "4") }

  const CompanionAlone: ConfluenceState := ConfluenceState(Fin(3600.0), [VesselTimer(Companion(), 3600.0)], Some(Out1))
  const LatecomerLast: ConfluenceState :=
    ConfluenceState(Fin(3590.0), [VesselTimer(Companion(), 3590.0), VesselTimer(Latecomer(), 7190.0)], Some(Out2))

  lemma CompanionEntersAloneAsWritten()
    ensures ExtTransitionAsWritten(ExperimentConfluence(), InitialAsWritten(), 0.0, Some(VesselMsg(Companion()))) == Ok(CompanionAlone)
  {
    ExperimentRoutes(1, 0.0);
    var joined := CompanionAlone.vesselTimerPairs;
    var lowered := LowerPairs(InitialAsWritten().vesselTimerPairs + [VesselTimer(Companion(), 3600.0)], 0.0);
    assert |lowered| == 1 && lowered[0] == joined[0];
    assert lowered == joined;
    SortSmall(joined[0], joined[0], TimerOf);
    ExtAsWrittenStep(ExperimentConfluence(), InitialAsWritten(), 0.0, Companion(), 0, joined, joined);
  }

  lemma LatecomerEntersAsWritten()
    ensures ExtTransitionAsWritten(ExperimentConfluence(), CompanionAlone, 10.0, Some(VesselMsg(Latecomer()))) == Ok(LatecomerLast)
  {
    ExperimentRoutes(2, 10.0);
    var appended := CompanionAlone.vesselTimerPairs + [VesselTimer(Latecomer(), 7200.0)];
    var lowered := LowerPairs(appended, 10.0);
    assert appended[0] == VesselTimer(Companion(), 3600.0) && appended[1] == VesselTimer(Latecomer(), 7200.0);
    assert |lowered| == 2 && lowered[0] == VesselTimer(Companion(), 3590.0) && lowered[1] == VesselTimer(Latecomer(), 7190.0);
    assert lowered == LatecomerLast.vesselTimerPairs;
    SortSmall(lowered[0], lowered[1], TimerOf);
    ExtAsWrittenStep(ExperimentConfluence(), CompanionAlone, 10.0, Latecomer(), 1, lowered, LatecomerLast.vesselTimerPairs);
  }

  /** A dock-"1" tanker arrives at t = 0 and a dock-"4" tanker at t = 10: the
      dock-"1" tanker leaves first, but on route 2, the port of the vessel
      that arrived last. */
  lemma {:induction false} HeadTakesLastArrivalsPort()
    ensures ExtTransitionAsWritten(ExperimentConfluence(), InitialAsWritten(), 0.0, Some(VesselMsg(Companion()))) == Ok(CompanionAlone)
    ensures ExtTransitionAsWritten(ExperimentConfluence(), CompanionAlone, 10.0, Some(VesselMsg(Latecomer()))) == Ok(LatecomerLast)
    ensures OutputAsWritten(LatecomerLast) == Ok((Out2, Companion()))
    ensures RouteOf(ExperimentConfluence(), Companion()) == Some(Out1)
  {
    ExperimentRoutes(1, 0.0);
    CompanionEntersAloneAsWritten();
    LatecomerEntersAsWritten();
  }

  // Corrected.

  /** One corrected arrival, given the joined and the sorted list. */
  lemma ExtStep(cfg: Config, s: RoutedState, e: real, v: Vessel, k: nat, joined: seq<Routed>, sorted: seq<Routed>)
    requires Valid(s) && 0.0 <= e && s.remainingTime.AtLeast(e)
    requires FindRecord(cfg.info, v.destinationDock) == Some(k)
    requires LowerRouted(s.pairs, e) + [Routed(v, TravelTime(cfg, k, v), cfg.info[k].portName)] == joined
    requires SortByKey(joined, RoutedTimer) == sorted && |sorted| > 0
    ensures ExtTransition(cfg, s, e, Some(VesselMsg(v))) == Ok(RoutedState(Fin(sorted[0].timer), sorted))
  {
  }

  /** One corrected internal transition, given the lowered and sorted rest. */
  lemma IntStep(cfg: Config, s: RoutedState, rest: seq<Routed>, sorted: seq<Routed>)
    requires Valid(s) && |s.pairs| > 0
    requires LowerRouted(s.pairs[1..], s.remainingTime.value) == rest
    requires SortByKey(rest, RoutedTimer) == sorted
    ensures IntTransition(cfg, s) == Ok(if |sorted| == 0 then RoutedState(Inf, sorted) else RoutedState(Fin(sorted[0].timer), sorted))
  {
  }

  const FixedEarly: RoutedState := RoutedState(Fin(7200.0), [Routed(EarlyTanker(), 7200.0, Out2)])
  const FixedBoth: RoutedState := RoutedState(Fin(3600.0), [Routed(EarlyTanker(), 3600.0, Out2), Routed(LateTanker(), 3600.0, Out1)])
  const FixedLate: RoutedState := RoutedState(Fin(0.0), [Routed(LateTanker(), 0.0, Out1)])

  lemma FixedEarlyEnters()
    ensures ExtTransition(ExperimentConfluence(), Initial(), 0.0, Some(VesselMsg(EarlyTanker()))) == Ok(FixedEarly)
  {
    ExperimentRoutes(0, 0.0);
    var joined := FixedEarly.pairs;
    assert LowerRouted(Initial().pairs, 0.0) == [];
    assert [] + [Routed(EarlyTanker(), 7200.0, Out2)] == joined;
    SortSmall(joined[0], joined[0], RoutedTimer);
    ExtStep(ExperimentConfluence(), Initial(), 0.0, EarlyTanker(), 1, joined, joined);
  }

  lemma FixedLateEnters()
    ensures ExtTransition(ExperimentConfluence(), FixedEarly, 3600.0, Some(VesselMsg(LateTanker()))) == Ok(FixedBoth)
  {
    ExperimentRoutes(3600, 3600.0);
    var joined := FixedBoth.pairs;
    var lowered := LowerRouted(FixedEarly.pairs, 3600.0);
    assert |lowered| == 1 && lowered[0] == Routed(EarlyTanker(), 3600.0, Out2);
    assert lowered + [Routed(LateTanker(), 3600.0, Out1)] == joined;
    SortSmall(joined[0], joined[1], RoutedTimer);
    assert Valid(FixedEarly);
    ExtStep(ExperimentConfluence(), FixedEarly, 3600.0, LateTanker(), 0, joined, joined);
  }

  lemma FixedDepartures()
    ensures IntTransition(ExperimentConfluence(), FixedBoth) == Ok(FixedLate)
    ensures IntTransition(ExperimentConfluence(), FixedLate) == Ok(RoutedState(Inf, []))
  {
    var rest := LowerRouted(FixedBoth.pairs[1..], 3600.0);
    assert |rest| == 1 && rest[0] == Routed(LateTanker(), 0.0, Out1);
    assert rest == FixedLate.pairs;
    SortSmall(rest[0], rest[0], RoutedTimer);
    assert SortedBy(FixedBoth.pairs, RoutedTimer);
    IntStep(ExperimentConfluence(), FixedBoth, rest, rest);
    var none := LowerRouted(FixedLate.pairs[1..], 0.0);
    assert none == [];
    assert SortByKey(none, RoutedTimer) == [];
    IntStep(ExperimentConfluence(), FixedLate, none, none);
  }

  /** The experiment, corrected: counted from the first arrival, the early
      tanker leaves on route 2 at t = 3600 + 3600 and the late tanker on
      route 1 at t = 7200 + 0, each
      after exactly its own travel time; then the confluence is passive. */
  lemma {:induction false} CorrectedExperiment()
    ensures ExtTransition(ExperimentConfluence(), Initial(), 0.0, Some(VesselMsg(EarlyTanker()))) == Ok(FixedEarly)
    ensures ExtTransition(ExperimentConfluence(), FixedEarly, 3600.0, Some(VesselMsg(LateTanker()))) == Ok(FixedBoth)
    ensures FixedBoth.remainingTime == Fin(3600.0) && Output(FixedBoth) == Ok((Out2, EarlyTanker()))
    ensures IntTransition(ExperimentConfluence(), FixedBoth) == Ok(FixedLate)
    ensures FixedLate.remainingTime == Fin(0.0) && Output(FixedLate) == Ok((Out1, LateTanker()))
    ensures IntTransition(ExperimentConfluence(), FixedLate) == Ok(RoutedState(Inf, []))
  {
    FixedEarlyEnters();
    FixedLateEnters();
    FixedDepartures();
  }
}
