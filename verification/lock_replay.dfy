/** A one-component replay of the lock: the kernel feeds arrivals after a
    given elapsed time, or lets the lock fire when its time advance expires
    (output, then internal transition).  When an arrival and a firing fall
    at the same instant, the firing is replayed first and the arrival
    follows with elapsed time 0. */
module LockReplay {
  import opened Wrappers
  import opened Vessels
  import opened Messages
  import opened Lock

  datatype Event = Arrive(elapsed: real, low: Option<Vessel>, high: Option<Vessel>) | Fire

  /** A vessel leaving the lock at absolute time `time` on the out-port of
      water level `level`. */
  datatype Departure = Departure(time: real, level: WaterLevel, vessel: Vessel)

  function AsMessage(v: Option<Vessel>): Option<Message> {
    if v.Some? then Some(VesselMsg(v.value)) else None
  }

  /** Every vessel an event delivers to the lock's in-ports: the low one,
      then the high one. */
  function Delivered(ev: Event): seq<Vessel> {
    if ev.Fire? then []
    else (if ev.low.Some? then [ev.low.value] else []) + (if ev.high.Some? then [ev.high.value] else [])
  }

  /** The vessel an event delivers that the lock never takes in: when both
      sides receive a vessel at once, the external transition only looks at
      the high side, so the low vessel joins no queue and never leaves. */
  function Dropped(ev: Event): (r: seq<Vessel>)
    ensures |r| > 0 <==> ev.Arrive? && ev.low.Some? && ev.high.Some?
    ensures |r| > 0 ==> r == [ev.low.value]
  {
    if ev.Arrive? && ev.low.Some? && ev.high.Some? then [ev.low.value] else []
  }

  /** Every vessel the lock holds, inside or waiting on either side. */
  function Inside(s: LockState): multiset<Vessel> {
    multiset(s.vesselsInLock) + multiset(s.vesselsWaitingLow) + multiset(s.vesselsWaitingHigh)
  }

  function DepartedVessels(ds: seq<Departure>): (vs: seq<Vessel>)
    ensures |vs| == |ds| && forall i :: 0 <= i < |ds| ==> vs[i] == ds[i].vessel
  {
    seq(|ds|, i requires 0 <= i < |ds| => ds[i].vessel)
  }

  lemma {:induction false} InterleavesSplitsMultiset<T>(xs: seq<T>, a: seq<T>, b: seq<T>)
    requires Interleaves(xs, a, b)
    ensures multiset(xs) == multiset(a) + multiset(b)
    decreases |xs|
  {
    if |xs| > 0 {
      assert xs == [xs[0]] + xs[1..];
      if |a| > 0 && a[0] == xs[0] && Interleaves(xs[1..], a[1..], b) {
        InterleavesSplitsMultiset(xs[1..], a[1..], b);
        assert a == [a[0]] + a[1..];
      } else {
        InterleavesSplitsMultiset(xs[1..], a, b[1..]);
        assert b == [b[0]] + b[1..];
      }
    }
  }

  /** A phase that only takes `head` off the front of the chamber and
      leaves both waiting lists alone loses exactly `head`. */
  lemma ChamberShrinks(s: LockState, r: LockState, head: seq<Vessel>)
    requires s.vesselsInLock == head + r.vesselsInLock
    requires r.vesselsWaitingLow == s.vesselsWaitingLow && r.vesselsWaitingHigh == s.vesselsWaitingHigh
    ensures Inside(s) == Inside(r) + multiset(head)
  {
  }

  /** Closing the gate moves vessels from the waiting list of the current
      level into the empty chamber and loses none. */
  lemma {:induction false} ClosingConserves(s: LockState, r: LockState, w: WaterLevel)
    requires |s.vesselsInLock| == 0
    requires Interleaves(s.Waiting(w), r.vesselsInLock, r.Waiting(w))
    requires r.Waiting(w.Swapped()) == s.Waiting(w.Swapped())
    ensures Inside(s) == Inside(r)
  {
    InterleavesSplitsMultiset(s.Waiting(w), r.vesselsInLock, r.Waiting(w));
    assert multiset(s.vesselsInLock) == multiset{};
    if w.High? {
      assert s.Waiting(w) == s.vesselsWaitingHigh && r.Waiting(w) == r.vesselsWaitingHigh;
      assert r.vesselsWaitingLow == s.vesselsWaitingLow;
    } else {
      assert s.Waiting(w) == s.vesselsWaitingLow && r.Waiting(w) == r.vesselsWaitingLow;
      assert r.vesselsWaitingHigh == s.vesselsWaitingHigh;
    }
  }

  /** The vessels a firing sends out, as a multiset. */
  function Sent(s: LockState): multiset<Vessel> {
    if Output(s).Some? then multiset{Output(s).value.1} else multiset{}
  }

  lemma ClosingFiringConserves(cfg: Config, s: LockState)
    requires IntTransition(cfg, s).Ok? && s.intervalState.GateClosing?
    ensures Inside(s) == Inside(IntTransition(cfg, s).value) + Sent(s)
  {
    var r := IntTransition(cfg, s).value;
    assert Output(s).None?;
    ClosingConserves(s, r, s.currentWaterLevel);
  }

  lemma StillFiringConserves(cfg: Config, s: LockState)
    requires IntTransition(cfg, s).Ok? && (s.intervalState.Washing? || s.intervalState.GateOpening?)
    ensures Inside(s) == Inside(IntTransition(cfg, s).value) + Sent(s)
  {
    var r := IntTransition(cfg, s).value;
    assert r.Waiting(Low) == r.vesselsWaitingLow && r.Waiting(High) == r.vesselsWaitingHigh;
    assert Output(s).None?;
    ChamberShrinks(s, r, []);
  }

  lemma OpenFiringConserves(cfg: Config, s: LockState)
    requires IntTransition(cfg, s).Ok? && s.intervalState.GateIsOpen?
    ensures Inside(s) == Inside(IntTransition(cfg, s).value) + Sent(s)
  {
    var r := IntTransition(cfg, s).value;
    assert r.Waiting(Low) == r.vesselsWaitingLow && r.Waiting(High) == r.vesselsWaitingHigh;
    if |s.vesselsInLock| > 0 {
      ChamberShrinks(s, r, [s.vesselsInLock[0]]);
    } else {
      ChamberShrinks(s, r, []);
    }
  }

  /** An internal transition loses no vessel: what it holds afterwards plus
      what it sent is what it held before. */
  lemma {:induction false} IntTransitionConserves(cfg: Config, s: LockState)
    requires IntTransition(cfg, s).Ok?
    ensures Inside(s) == Inside(IntTransition(cfg, s).value) + Sent(s)
  {
    match s.intervalState
    case GateClosing => ClosingFiringConserves(cfg, s);
    case Washing => StillFiringConserves(cfg, s);
    case GateOpening => StillFiringConserves(cfg, s);
    case GateIsOpen => OpenFiringConserves(cfg, s);
  }

  /** The departures a firing at absolute time `t` produces: the output,
      if any. */
  function FiringDepartures(s: LockState, t: real): (ds: seq<Departure>)
    ensures multiset(DepartedVessels(ds)) == Sent(s)
  {
    if Output(s).Some? then
      assert DepartedVessels([Departure(t, Output(s).value.0, Output(s).value.1)]) == [Output(s).value.1];
      [Departure(t, Output(s).value.0, Output(s).value.1)]
    else []
  }

  /** The lock fires at absolute time `now`: output, then internal
      transition, at the end of the time advance. */
  function Fired(cfg: Config, s: LockState, now: real): (r: Option<(LockState, real, seq<Departure>)>)
    ensures r.Some? ==> Inside(s) == Inside(r.value.0) + multiset(DepartedVessels(r.value.2))
    ensures r.Some? ==> r.value.1 == now + s.remainingTime
    ensures r.Some? && ConfigOk(cfg) && Valid(cfg, s) ==> Valid(cfg, r.value.0)
  {
    match IntTransition(cfg, s)
    case Err(_) => None
    case Ok(s') =>
      IntTransitionConserves(cfg, s);
      Some((s', now + s.remainingTime, FiringDepartures(s, now + s.remainingTime)))
  }

  /** One kernel step at absolute time `now`.  `None` when the kernel could
      not produce it: an elapsed time beyond the time advance, an arrival
      event without a vessel, or a failing transition. */
  function Step(cfg: Config, s: LockState, now: real, ev: Event): (r: Option<(LockState, real, seq<Departure>)>)
    ensures r.Some? ==>
              Inside(s) + multiset(Delivered(ev))
              == Inside(r.value.0) + multiset(DepartedVessels(r.value.2)) + multiset(Dropped(ev))
    ensures r.Some? && ev.Fire? ==> r.value.1 == now + s.remainingTime
    ensures r.Some? && ev.Arrive? ==> r.value.1 == now + ev.elapsed && r.value.2 == []
    ensures r.Some? && ConfigOk(cfg) && Valid(cfg, s) ==> Valid(cfg, r.value.0)
  {
    match ev
    case Arrive(e, low, high) =>
      if 0.0 <= e <= s.remainingTime then
        match ExtTransition(cfg, s, e, AsMessage(low), AsMessage(high))
        case Err(_) => None
        case Ok(s') => Some((s', now + e, []))
      else None
    case Fire => Fired(cfg, s, now)
  }

  function Run(cfg: Config, s: LockState, now: real, evs: seq<Event>): Option<(LockState, seq<Departure>)>
    decreases |evs|
  {
    if |evs| == 0 then Some((s, []))
    else match Step(cfg, s, now, evs[0])
      case None => None
      case Some((s', t, ds)) =>
        match Run(cfg, s', t, evs[1..])
        case None => None
        case Some((fin, ds')) => Some((fin, ds + ds'))
  }

  function AllDelivered(evs: seq<Event>): seq<Vessel>
    decreases |evs|
  {
    if |evs| == 0 then [] else Delivered(evs[0]) + AllDelivered(evs[1..])
  }

  function AllDropped(evs: seq<Event>): seq<Vessel>
    decreases |evs|
  {
    if |evs| == 0 then [] else Dropped(evs[0]) + AllDropped(evs[1..])
  }

  lemma ChainMultisets<T>(i0: multiset<T>, i1: multiset<T>, i2: multiset<T>,
                            a0: multiset<T>, a1: multiset<T>, d0: multiset<T>, d1: multiset<T>)
    requires i0 + a0 == i1 + d0 && i1 + a1 == i2 + d1
    ensures i0 + (a0 + a1) == i2 + (d0 + d1)
  {
    calc {
      i0 + (a0 + a1);
      (i0 + a0) + a1;
      (i1 + d0) + a1;
      (i1 + a1) + d0;
      (i2 + d1) + d0;
      i2 + (d0 + d1);
    }
  }

  /** A non-empty replay is its first step followed by the replay of the rest. */
  lemma RunUnfolds(cfg: Config, s: LockState, now: real, evs: seq<Event>)
    requires |evs| > 0 && Run(cfg, s, now, evs).Some?
    ensures Step(cfg, s, now, evs[0]).Some?
    ensures
      var step := Step(cfg, s, now, evs[0]).value;
      && Run(cfg, step.0, step.1, evs[1..]).Some?
      && Run(cfg, s, now, evs).value
         == (Run(cfg, step.0, step.1, evs[1..]).value.0, step.2 + Run(cfg, step.0, step.1, evs[1..]).value.1)
  {
  }

  lemma DepartedVesselsAppend(a: seq<Departure>, b: seq<Departure>)
    ensures multiset(DepartedVessels(a + b)) == multiset(DepartedVessels(a)) + multiset(DepartedVessels(b))
  {
    assert DepartedVessels(a + b) == DepartedVessels(a) + DepartedVessels(b);
  }

  /** Over any replay, the lock invents no vessel and loses none except the
      low vessels of simultaneous arrivals: what it held at the start plus
      every vessel delivered is what it holds at the end, plus what left,
      plus what was dropped. */
  lemma {:induction false} RunConservesVessels(cfg: Config, s: LockState, now: real, evs: seq<Event>)
    ensures Run(cfg, s, now, evs).Some? ==>
              Inside(s) + multiset(AllDelivered(evs))
              == Inside(Run(cfg, s, now, evs).value.0) + multiset(DepartedVessels(Run(cfg, s, now, evs).value.1))
                 + multiset(AllDropped(evs))
    decreases |evs|
  {
    if |evs| > 0 && Run(cfg, s, now, evs).Some? {
      RunUnfolds(cfg, s, now, evs);
      var step := Step(cfg, s, now, evs[0]).value;
      var rest := Run(cfg, step.0, step.1, evs[1..]).value;
      RunConservesVessels(cfg, step.0, step.1, evs[1..]);
      DepartedVesselsAppend(step.2, rest.1);
      assert multiset(AllDelivered(evs)) == multiset(Delivered(evs[0])) + multiset(AllDelivered(evs[1..]));
      assert multiset(AllDropped(evs)) == multiset(Dropped(evs[0])) + multiset(AllDropped(evs[1..]));
      ChainMultisets(Inside(s), Inside(step.0), Inside(rest.0),
                     multiset(Delivered(evs[0])), multiset(AllDelivered(evs[1..])),
                     multiset(DepartedVessels(step.2)) + multiset(Dropped(evs[0])),
                     multiset(DepartedVessels(rest.1)) + multiset(AllDropped(evs[1..])));
    }
  }

  /** When both sides deliver a vessel at once, the high vessel joins the
      high queue and the low vessel is lost: the lock holds exactly one more
      vessel than before and sends none. */
  lemma LowVesselIsDropped(cfg: Config, s: LockState, now: real, e: real, low: Vessel, high: Vessel)
    requires 0.0 <= e <= s.remainingTime
    ensures Step(cfg, s, now, Arrive(e, Some(low), Some(high))).Some?
    ensures var r := Step(cfg, s, now, Arrive(e, Some(low), Some(high))).value;
      && Inside(r.0) == Inside(s) + multiset{high}
      && r.2 == []
      && (low !in Inside(s) && low != high ==> low !in Inside(r.0))
  {
  }

  // -----------------------------------------------------------------------
  // Single steps, spelled out once so that concrete replays can use them.

  lemma ArriveStep(cfg: Config, s: LockState, now: real, e: real, low: Option<Vessel>, high: Option<Vessel>)
    requires 0.0 <= e <= s.remainingTime && (low.Some? || high.Some?)
    ensures Step(cfg, s, now, Arrive(e, low, high))
         == Some((if high.Some?
                  then s.(remainingTime := s.remainingTime - e, vesselsWaitingHigh := s.vesselsWaitingHigh + [high.value])
                  else s.(remainingTime := s.remainingTime - e, vesselsWaitingLow := s.vesselsWaitingLow + [low.value]),
                  now + e, []))
  {
  }

  lemma FireStep(cfg: Config, s: LockState, now: real, s': LockState)
    requires IntTransition(cfg, s) == Ok(s')
    ensures Step(cfg, s, now, Fire)
         == Some((s', now + s.remainingTime,
                  if Output(s).Some? then [Departure(now + s.remainingTime, Output(s).value.0, Output(s).value.1)] else []))
  {
    FiredOk(cfg, s, now, s');
    assert FiringDepartures(s, now + s.remainingTime)
        == if Output(s).Some? then [Departure(now + s.remainingTime, Output(s).value.0, Output(s).value.1)] else [];
  }

  lemma FiredOk(cfg: Config, s: LockState, now: real, s': LockState)
    requires IntTransition(cfg, s) == Ok(s')
    ensures Fired(cfg, s, now) == Some((s', now + s.remainingTime, FiringDepartures(s, now + s.remainingTime)))
  {
  }

  lemma AreasOfExperimentVessels(v: Vessel)
    ensures v.vesselClass.CrudeOilTanker? ==> v.SurfaceArea() == 11007
    ensures v.vesselClass.TugBoat? ==> v.SurfaceArea() == 348
  {
  }

  lemma RunCons(cfg: Config, s: LockState, now: real, ev: Event, rest: seq<Event>,
                s': LockState, t: real, ds: seq<Departure>, fin: LockState, ds': seq<Departure>)
    requires Step(cfg, s, now, ev) == Some((s', t, ds))
    requires Run(cfg, s', t, rest) == Some((fin, ds'))
    ensures Run(cfg, s, now, [ev] + rest) == Some((fin, ds + ds'))
  {
    assert ([ev] + rest)[1..] == rest;
  }

  lemma IntFromClosing(cfg: Config, s: LockState, admitted: seq<Vessel>, left: seq<Vessel>, free: int)
    requires s.intervalState.GateClosing? && |s.vesselsInLock| == 0
    requires Admit(s.currentSurfaceArea, s.Waiting(s.currentWaterLevel)) == (admitted, left, free)
    ensures IntTransition(cfg, s)
         == Ok(s.WithWaiting(s.currentWaterLevel, left).(vesselsInLock := admitted, currentSurfaceArea := cfg.surfaceArea,
                                                         remainingTime := cfg.gateDuration as real, intervalState := Washing))
  {
  }

  lemma IntFromWashing(cfg: Config, s: LockState)
    requires s.intervalState.Washing? && |s.vesselsInLock| > 0
    ensures IntTransition(cfg, s)
         == Ok(s.(remainingTime := cfg.washingDuration as real, currentWaterLevel := s.currentWaterLevel.Swapped(),
                  sumRemainingSurfaceArea := s.sumRemainingSurfaceArea + (cfg.surfaceArea - s.currentSurfaceArea),
                  numberOfWashings := s.numberOfWashings + 1, intervalState := GateOpening))
  {
  }

  lemma IntFromOpening(cfg: Config, s: LockState)
    requires s.intervalState.GateOpening?
    ensures IntTransition(cfg, s) == Ok(s.(remainingTime := cfg.gateDuration as real, intervalState := GateIsOpen))
  {
  }

  lemma IntFromOpen(cfg: Config, s: LockState)
    requires s.intervalState.GateIsOpen?
    ensures |s.vesselsInLock| > 1 ==>
              IntTransition(cfg, s)
              == Ok(s.(vesselsInLock := s.vesselsInLock[1..], remainingTime := cfg.timeBetweenDepartures as real))
    ensures |s.vesselsInLock| <= 1 ==>
              IntTransition(cfg, s)
              == Ok(s.(vesselsInLock := [], intervalState := GateClosing,
                       remainingTime := (cfg.lockShiftInterval - (2 * cfg.gateDuration + cfg.washingDuration)) as real))
  {
  }

  // -----------------------------------------------------------------------
  // The lock experiment: washing 7 s, shift 20 s, gates 4 s, a 30000 m2
  // chamber and 10 s between departures.  Crude Oil Tankers 0, 1, 2, 6, 7
  // and Tug Boat 8 arrive on the high side and Crude Oil Tankers 3, 4, 5 on
  // the low side, each at the second equal to its uid.

  const ExperimentLock: Config := Config(7, 20, 4, 30000, 10)

  function Tanker(uid: int): Vessel { NewVessel(CrudeOilTanker, uid, uid as real) }
  function Tug(uid: int): Vessel { NewVessel(TugBoat, uid, uid as real) }

  const EventsFrom34: seq<Event> := []
  const EventsFrom33: seq<Event> := [Fire] + EventsFrom34
  const EventsFrom32: seq<Event> := [Fire] + EventsFrom33
  const EventsFrom31: seq<Event> := [Fire] + EventsFrom32
  const EventsFrom30: seq<Event> := [Fire] + EventsFrom31
  const EventsFrom29: seq<Event> := [Fire] + EventsFrom30
  const EventsFrom28: seq<Event> := [Fire] + EventsFrom29
  const EventsFrom27: seq<Event> := [Fire] + EventsFrom28
  const EventsFrom26: seq<Event> := [Fire] + EventsFrom27
  const EventsFrom25: seq<Event> := [Fire] + EventsFrom26
  const EventsFrom24: seq<Event> := [Fire] + EventsFrom25
  const EventsFrom23: seq<Event> := [Fire] + EventsFrom24
  const EventsFrom22: seq<Event> := [Fire] + EventsFrom23
  const EventsFrom21: seq<Event> := [Fire] + EventsFrom22
  const EventsFrom20: seq<Event> := [Fire] + EventsFrom21
  const EventsFrom19: seq<Event> := [Fire] + EventsFrom20
  const EventsFrom18: seq<Event> := [Fire] + EventsFrom19
  const EventsFrom17: seq<Event> := [Fire] + EventsFrom18
  const EventsFrom16: seq<Event> := [Fire] + EventsFrom17
  const EventsFrom15: seq<Event> := [Fire] + EventsFrom16
  const EventsFrom14: seq<Event> := [Fire] + EventsFrom15
  const EventsFrom13: seq<Event> := [Fire] + EventsFrom14
  const EventsFrom12: seq<Event> := [Fire] + EventsFrom13
  const EventsFrom11: seq<Event> := [Fire] + EventsFrom12
  const EventsFrom10: seq<Event> := [Arrive(1.0, None, Some(Tug(8)))] + EventsFrom11
  const EventsFrom9: seq<Event> := [Arrive(1.0, None, Some(Tanker(7)))] + EventsFrom10
  const EventsFrom8: seq<Event> := [Arrive(1.0, None, Some(Tanker(6)))] + EventsFrom9
  const EventsFrom7: seq<Event> := [Arrive(0.0, Some(Tanker(5)), None)] + EventsFrom8
  const EventsFrom6: seq<Event> := [Fire] + EventsFrom7
  const EventsFrom5: seq<Event> := [Arrive(1.0, Some(Tanker(4)), None)] + EventsFrom6
  const EventsFrom4: seq<Event> := [Arrive(1.0, Some(Tanker(3)), None)] + EventsFrom5
  const EventsFrom3: seq<Event> := [Arrive(1.0, None, Some(Tanker(2)))] + EventsFrom4
  const EventsFrom2: seq<Event> := [Arrive(1.0, None, Some(Tanker(1)))] + EventsFrom3
  const EventsFrom1: seq<Event> := [Arrive(0.0, None, Some(Tanker(0)))] + EventsFrom2
  const EventsFrom0: seq<Event> := [Fire] + EventsFrom1

  const DeparturesFrom34: seq<Departure> := []
  const DeparturesFrom33: seq<Departure> := [Departure(140.0, Low, Tanker(7))] + DeparturesFrom34
  const DeparturesFrom32: seq<Departure> := [] + DeparturesFrom33
  const DeparturesFrom31: seq<Departure> := [] + DeparturesFrom32
  const DeparturesFrom30: seq<Departure> := [] + DeparturesFrom31
  const DeparturesFrom29: seq<Departure> := [Departure(120.0, High, Tanker(5))] + DeparturesFrom30
  const DeparturesFrom28: seq<Departure> := [] + DeparturesFrom29
  const DeparturesFrom27: seq<Departure> := [] + DeparturesFrom28
  const DeparturesFrom26: seq<Departure> := [] + DeparturesFrom27
  const DeparturesFrom25: seq<Departure> := [Departure(100.0, Low, Tug(8))] + DeparturesFrom26
  const DeparturesFrom24: seq<Departure> := [Departure(90.0, Low, Tanker(6))] + DeparturesFrom25
  const DeparturesFrom23: seq<Departure> := [Departure(80.0, Low, Tanker(2))] + DeparturesFrom24
  const DeparturesFrom22: seq<Departure> := [] + DeparturesFrom23
  const DeparturesFrom21: seq<Departure> := [] + DeparturesFrom22
  const DeparturesFrom20: seq<Departure> := [] + DeparturesFrom21
  const DeparturesFrom19: seq<Departure> := [Departure(60.0, High, Tanker(4))] + DeparturesFrom20
  const DeparturesFrom18: seq<Departure> := [Departure(50.0, High, Tanker(3))] + DeparturesFrom19
  const DeparturesFrom17: seq<Departure> := [] + DeparturesFrom18
  const DeparturesFrom16: seq<Departure> := [] + DeparturesFrom17
  const DeparturesFrom15: seq<Departure> := [] + DeparturesFrom16
  const DeparturesFrom14: seq<Departure> := [Departure(30.0, Low, Tanker(1))] + DeparturesFrom15
  const DeparturesFrom13: seq<Departure> := [Departure(20.0, Low, Tanker(0))] + DeparturesFrom14
  const DeparturesFrom12: seq<Departure> := [] + DeparturesFrom13
  const DeparturesFrom11: seq<Departure> := [] + DeparturesFrom12
  const DeparturesFrom10: seq<Departure> := [] + DeparturesFrom11
  const DeparturesFrom9: seq<Departure> := [] + DeparturesFrom10
  const DeparturesFrom8: seq<Departure> := [] + DeparturesFrom9
  const DeparturesFrom7: seq<Departure> := [] + DeparturesFrom8
  const DeparturesFrom6: seq<Departure> := [] + DeparturesFrom7
  const DeparturesFrom5: seq<Departure> := [] + DeparturesFrom6
  const DeparturesFrom4: seq<Departure> := [] + DeparturesFrom5
  const DeparturesFrom3: seq<Departure> := [] + DeparturesFrom4
  const DeparturesFrom2: seq<Departure> := [] + DeparturesFrom3
  const DeparturesFrom1: seq<Departure> := [] + DeparturesFrom2
  const DeparturesFrom0: seq<Departure> := [] + DeparturesFrom1

  const State0: LockState := LockState(30000, High, GateIsOpen, 0.0, [], [], [], 0, 0, 0, 0)
  const State1: LockState := LockState(30000, High, GateClosing, 5.0, [], [], [], 0, 0, 0, 0)
  const State2: LockState := LockState(30000, High, GateClosing, 5.0, [], [], [Tanker(0)], 0, 0, 0, 0)
  const State3: LockState := LockState(30000, High, GateClosing, 4.0, [], [], [Tanker(0), Tanker(1)], 0, 0, 0, 0)
  const State4: LockState := LockState(30000, High, GateClosing, 3.0, [], [], [Tanker(0), Tanker(1), Tanker(2)], 0, 0, 0, 0)
  const State5: LockState := LockState(30000, High, GateClosing, 2.0, [], [Tanker(3)], [Tanker(0), Tanker(1), Tanker(2)], 0, 0, 0, 0)
  const State6: LockState := LockState(30000, High, GateClosing, 1.0, [], [Tanker(3), Tanker(4)], [Tanker(0), Tanker(1), Tanker(2)], 0, 0, 0, 0)
  const State7: LockState := LockState(30000, High, Washing, 4.0, [Tanker(0), Tanker(1)], [Tanker(3), Tanker(4)], [Tanker(2)], 0, 0, 0, 0)
  const State8: LockState := LockState(30000, High, Washing, 4.0, [Tanker(0), Tanker(1)], [Tanker(3), Tanker(4), Tanker(5)], [Tanker(2)], 0, 0, 0, 0)
  const State9: LockState := LockState(30000, High, Washing, 3.0, [Tanker(0), Tanker(1)], [Tanker(3), Tanker(4), Tanker(5)], [Tanker(2), Tanker(6)], 0, 0, 0, 0)
  const State10: LockState := LockState(30000, High, Washing, 2.0, [Tanker(0), Tanker(1)], [Tanker(3), Tanker(4), Tanker(5)], [Tanker(2), Tanker(6), Tanker(7)], 0, 0, 0, 0)
  const State11: LockState := LockState(30000, High, Washing, 1.0, [Tanker(0), Tanker(1)], [Tanker(3), Tanker(4), Tanker(5)], [Tanker(2), Tanker(6), Tanker(7), Tug(8)], 0, 0, 0, 0)
  const State12: LockState := LockState(30000, Low, GateOpening, 7.0, [Tanker(0), Tanker(1)], [Tanker(3), Tanker(4), Tanker(5)], [Tanker(2), Tanker(6), Tanker(7), Tug(8)], 0, 1, 0, 0)
  const State13: LockState := LockState(30000, Low, GateIsOpen, 4.0, [Tanker(0), Tanker(1)], [Tanker(3), Tanker(4), Tanker(5)], [Tanker(2), Tanker(6), Tanker(7), Tug(8)], 0, 1, 0, 0)
  const State14: LockState := LockState(30000, Low, GateIsOpen, 10.0, [Tanker(1)], [Tanker(3), Tanker(4), Tanker(5)], [Tanker(2), Tanker(6), Tanker(7), Tug(8)], 0, 1, 0, 0)
  const State15: LockState := LockState(30000, Low, GateClosing, 5.0, [], [Tanker(3), Tanker(4), Tanker(5)], [Tanker(2), Tanker(6), Tanker(7), Tug(8)], 0, 1, 0, 0)
  const State16: LockState := LockState(30000, Low, Washing, 4.0, [Tanker(3), Tanker(4)], [Tanker(5)], [Tanker(2), Tanker(6), Tanker(7), Tug(8)], 0, 1, 0, 0)
  const State17: LockState := LockState(30000, High, GateOpening, 7.0, [Tanker(3), Tanker(4)], [Tanker(5)], [Tanker(2), Tanker(6), Tanker(7), Tug(8)], 0, 2, 0, 0)
  const State18: LockState := LockState(30000, High, GateIsOpen, 4.0, [Tanker(3), Tanker(4)], [Tanker(5)], [Tanker(2), Tanker(6), Tanker(7), Tug(8)], 0, 2, 0, 0)
  const State19: LockState := LockState(30000, High, GateIsOpen, 10.0, [Tanker(4)], [Tanker(5)], [Tanker(2), Tanker(6), Tanker(7), Tug(8)], 0, 2, 0, 0)
  const State20: LockState := LockState(30000, High, GateClosing, 5.0, [], [Tanker(5)], [Tanker(2), Tanker(6), Tanker(7), Tug(8)], 0, 2, 0, 0)
  const State21: LockState := LockState(30000, High, Washing, 4.0, [Tanker(2), Tanker(6), Tug(8)], [Tanker(5)], [Tanker(7)], 0, 2, 0, 0)
  const State22: LockState := LockState(30000, Low, GateOpening, 7.0, [Tanker(2), Tanker(6), Tug(8)], [Tanker(5)], [Tanker(7)], 0, 3, 0, 0)
  const State23: LockState := LockState(30000, Low, GateIsOpen, 4.0, [Tanker(2), Tanker(6), Tug(8)], [Tanker(5)], [Tanker(7)], 0, 3, 0, 0)
  const State24: LockState := LockState(30000, Low, GateIsOpen, 10.0, [Tanker(6), Tug(8)], [Tanker(5)], [Tanker(7)], 0, 3, 0, 0)
  const State25: LockState := LockState(30000, Low, GateIsOpen, 10.0, [Tug(8)], [Tanker(5)], [Tanker(7)], 0, 3, 0, 0)
  const State26: LockState := LockState(30000, Low, GateClosing, 5.0, [], [Tanker(5)], [Tanker(7)], 0, 3, 0, 0)
  const State27: LockState := LockState(30000, Low, Washing, 4.0, [Tanker(5)], [], [Tanker(7)], 0, 3, 0, 0)
  const State28: LockState := LockState(30000, High, GateOpening, 7.0, [Tanker(5)], [], [Tanker(7)], 0, 4, 0, 0)
  const State29: LockState := LockState(30000, High, GateIsOpen, 4.0, [Tanker(5)], [], [Tanker(7)], 0, 4, 0, 0)
  const State30: LockState := LockState(30000, High, GateClosing, 5.0, [], [], [Tanker(7)], 0, 4, 0, 0)
  const State31: LockState := LockState(30000, High, Washing, 4.0, [Tanker(7)], [], [], 0, 4, 0, 0)
  const State32: LockState := LockState(30000, Low, GateOpening, 7.0, [Tanker(7)], [], [], 0, 5, 0, 0)
  const State33: LockState := LockState(30000, Low, GateIsOpen, 4.0, [Tanker(7)], [], [], 0, 5, 0, 0)
  const State34: LockState := LockState(30000, Low, GateClosing, 5.0, [], [], [], 0, 5, 0, 0)

  lemma StepFrom0()
    ensures Step(ExperimentLock, State0, 0.0, Fire) == Some((State1, 0.0, []))
  {
    assert State0.remainingTime == 0.0;
    assert Output(State0).None?;
    IntFromOpen(ExperimentLock, State0);
    assert IntTransition(ExperimentLock, State0) == Ok(State1);
    FireStep(ExperimentLock, State0, 0.0, State1);
  }

  lemma StepFrom1()
    ensures Step(ExperimentLock, State1, 0.0, Arrive(0.0, None, Some(Tanker(0)))) == Some((State2, 0.0, []))
  {
    assert [] + [Tanker(0)] == [Tanker(0)];
    assert State1.remainingTime == 5.0;
    assert State1.(remainingTime := 5.0 - 0.0, vesselsWaitingHigh := [] + [Tanker(0)]) == State2;
    ArriveStep(ExperimentLock, State1, 0.0, 0.0, None, Some(Tanker(0)));
  }

  lemma StepFrom2()
    ensures Step(ExperimentLock, State2, 0.0, Arrive(1.0, None, Some(Tanker(1)))) == Some((State3, 1.0, []))
  {
    assert [Tanker(0)] + [Tanker(1)] == [Tanker(0), Tanker(1)];
    assert State2.remainingTime == 5.0;
    assert State2.(remainingTime := 5.0 - 1.0, vesselsWaitingHigh := [Tanker(0)] + [Tanker(1)]) == State3;
    ArriveStep(ExperimentLock, State2, 0.0, 1.0, None, Some(Tanker(1)));
  }

  lemma StepFrom3()
    ensures Step(ExperimentLock, State3, 1.0, Arrive(1.0, None, Some(Tanker(2)))) == Some((State4, 2.0, []))
  {
    assert [Tanker(0), Tanker(1)] + [Tanker(2)] == [Tanker(0), Tanker(1), Tanker(2)];
    assert State3.remainingTime == 4.0;
    assert State3.(remainingTime := 4.0 - 1.0, vesselsWaitingHigh := [Tanker(0), Tanker(1)] + [Tanker(2)]) == State4;
    ArriveStep(ExperimentLock, State3, 1.0, 1.0, None, Some(Tanker(2)));
  }

  lemma StepFrom4()
    ensures Step(ExperimentLock, State4, 2.0, Arrive(1.0, Some(Tanker(3)), None)) == Some((State5, 3.0, []))
  {
    assert [] + [Tanker(3)] == [Tanker(3)];
    assert State4.remainingTime == 3.0;
    assert State4.(remainingTime := 3.0 - 1.0, vesselsWaitingLow := [] + [Tanker(3)]) == State5;
    ArriveStep(ExperimentLock, State4, 2.0, 1.0, Some(Tanker(3)), None);
  }

  lemma StepFrom5()
    ensures Step(ExperimentLock, State5, 3.0, Arrive(1.0, Some(Tanker(4)), None)) == Some((State6, 4.0, []))
  {
    assert [Tanker(3)] + [Tanker(4)] == [Tanker(3), Tanker(4)];
    assert State5.remainingTime == 2.0;
    assert State5.(remainingTime := 2.0 - 1.0, vesselsWaitingLow := [Tanker(3)] + [Tanker(4)]) == State6;
    ArriveStep(ExperimentLock, State5, 3.0, 1.0, Some(Tanker(4)), None);
  }

  lemma AdmitAt6From2()
    ensures Admit(7986, [Tanker(2)]) == ([], [Tanker(2)], 7986)
  {
    assert [Tanker(2)] + [] == [Tanker(2)];
    AreasOfExperimentVessels(Tanker(2));
    assert Tanker(2).SurfaceArea() == 11007;
    AdmitSkips(7986, Tanker(2), [], [], [], 7986);
  }

  lemma AdmitAt6From1()
    ensures Admit(18993, [Tanker(1), Tanker(2)]) == ([Tanker(1)], [Tanker(2)], 7986)
  {
    assert [Tanker(1)] + [Tanker(2)] == [Tanker(1), Tanker(2)];
    assert [Tanker(1)] + [] == [Tanker(1)];
    AdmitAt6From2();
    AreasOfExperimentVessels(Tanker(1));
    assert Tanker(1).SurfaceArea() == 11007;
    AdmitFits(18993, Tanker(1), [Tanker(2)], [], [Tanker(2)], 7986);
  }

  lemma AdmitAt6()
    ensures Admit(30000, [Tanker(0), Tanker(1), Tanker(2)]) == ([Tanker(0), Tanker(1)], [Tanker(2)], 7986)
  {
    assert [Tanker(0)] + [Tanker(1), Tanker(2)] == [Tanker(0), Tanker(1), Tanker(2)];
    assert [Tanker(0)] + [Tanker(1)] == [Tanker(0), Tanker(1)];
    AdmitAt6From1();
    AreasOfExperimentVessels(Tanker(0));
    assert Tanker(0).SurfaceArea() == 11007;
    AdmitFits(30000, Tanker(0), [Tanker(1), Tanker(2)], [Tanker(1)], [Tanker(2)], 7986);
  }

  lemma StepFrom6()
    ensures Step(ExperimentLock, State6, 4.0, Fire) == Some((State7, 5.0, []))
  {
    assert State6.remainingTime == 1.0;
    assert Output(State6).None?;
    assert State6.WithWaiting(State6.currentWaterLevel, [Tanker(2)]).(vesselsInLock := [Tanker(0), Tanker(1)], currentSurfaceArea := ExperimentLock.surfaceArea, remainingTime := ExperimentLock.gateDuration as real, intervalState := Washing) == State7;
    AdmitAt6();
    IntFromClosing(ExperimentLock, State6, [Tanker(0), Tanker(1)], [Tanker(2)], 7986);
    assert IntTransition(ExperimentLock, State6) == Ok(State7);
    FireStep(ExperimentLock, State6, 4.0, State7);
  }

  lemma StepFrom7()
    ensures Step(ExperimentLock, State7, 5.0, Arrive(0.0, Some(Tanker(5)), None)) == Some((State8, 5.0, []))
  {
    assert [Tanker(3), Tanker(4)] + [Tanker(5)] == [Tanker(3), Tanker(4), Tanker(5)];
    assert State7.remainingTime == 4.0;
    assert State7.(remainingTime := 4.0 - 0.0, vesselsWaitingLow := [Tanker(3), Tanker(4)] + [Tanker(5)]) == State8;
    ArriveStep(ExperimentLock, State7, 5.0, 0.0, Some(Tanker(5)), None);
  }

  lemma StepFrom8()
    ensures Step(ExperimentLock, State8, 5.0, Arrive(1.0, None, Some(Tanker(6)))) == Some((State9, 6.0, []))
  {
    assert [Tanker(2)] + [Tanker(6)] == [Tanker(2), Tanker(6)];
    assert State8.remainingTime == 4.0;
    assert State8.(remainingTime := 4.0 - 1.0, vesselsWaitingHigh := [Tanker(2)] + [Tanker(6)]) == State9;
    ArriveStep(ExperimentLock, State8, 5.0, 1.0, None, Some(Tanker(6)));
  }

  lemma StepFrom9()
    ensures Step(ExperimentLock, State9, 6.0, Arrive(1.0, None, Some(Tanker(7)))) == Some((State10, 7.0, []))
  {
    assert [Tanker(2), Tanker(6)] + [Tanker(7)] == [Tanker(2), Tanker(6), Tanker(7)];
    assert State9.remainingTime == 3.0;
    assert State9.(remainingTime := 3.0 - 1.0, vesselsWaitingHigh := [Tanker(2), Tanker(6)] + [Tanker(7)]) == State10;
    ArriveStep(ExperimentLock, State9, 6.0, 1.0, None, Some(Tanker(7)));
  }

  lemma StepFrom10()
    ensures Step(ExperimentLock, State10, 7.0, Arrive(1.0, None, Some(Tug(8)))) == Some((State11, 8.0, []))
  {
    assert [Tanker(2), Tanker(6), Tanker(7)] + [Tug(8)] == [Tanker(2), Tanker(6), Tanker(7), Tug(8)];
    assert State10.remainingTime == 2.0;
    assert State10.(remainingTime := 2.0 - 1.0, vesselsWaitingHigh := [Tanker(2), Tanker(6), Tanker(7)] + [Tug(8)]) == State11;
    ArriveStep(ExperimentLock, State10, 7.0, 1.0, None, Some(Tug(8)));
  }

  lemma StepFrom11()
    ensures Step(ExperimentLock, State11, 8.0, Fire) == Some((State12, 9.0, []))
  {
    assert State11.remainingTime == 1.0;
    assert Output(State11).None?;
    IntFromWashing(ExperimentLock, State11);
    assert IntTransition(ExperimentLock, State11) == Ok(State12);
    FireStep(ExperimentLock, State11, 8.0, State12);
  }

  lemma StepFrom12()
    ensures Step(ExperimentLock, State12, 9.0, Fire) == Some((State13, 16.0, []))
  {
    assert State12.remainingTime == 7.0;
    assert Output(State12).None?;
    IntFromOpening(ExperimentLock, State12);
    assert IntTransition(ExperimentLock, State12) == Ok(State13);
    FireStep(ExperimentLock, State12, 9.0, State13);
  }

  lemma StepFrom13()
    ensures Step(ExperimentLock, State13, 16.0, Fire) == Some((State14, 20.0, [Departure(20.0, Low, Tanker(0))]))
  {
    assert State13.remainingTime == 4.0;
    assert Output(State13) == Some((Low, Tanker(0)));
    IntFromOpen(ExperimentLock, State13);
    assert IntTransition(ExperimentLock, State13) == Ok(State14);
    FireStep(ExperimentLock, State13, 16.0, State14);
  }

  lemma StepFrom14()
    ensures Step(ExperimentLock, State14, 20.0, Fire) == Some((State15, 30.0, [Departure(30.0, Low, Tanker(1))]))
  {
    assert State14.remainingTime == 10.0;
    assert Output(State14) == Some((Low, Tanker(1)));
    IntFromOpen(ExperimentLock, State14);
    assert IntTransition(ExperimentLock, State14) == Ok(State15);
    FireStep(ExperimentLock, State14, 20.0, State15);
  }

  lemma AdmitAt15From2()
    ensures Admit(7986, [Tanker(5)]) == ([], [Tanker(5)], 7986)
  {
    assert [Tanker(5)] + [] == [Tanker(5)];
    AreasOfExperimentVessels(Tanker(5));
    assert Tanker(5).SurfaceArea() == 11007;
    AdmitSkips(7986, Tanker(5), [], [], [], 7986);
  }

  lemma AdmitAt15From1()
    ensures Admit(18993, [Tanker(4), Tanker(5)]) == ([Tanker(4)], [Tanker(5)], 7986)
  {
    assert [Tanker(4)] + [Tanker(5)] == [Tanker(4), Tanker(5)];
    assert [Tanker(4)] + [] == [Tanker(4)];
    AdmitAt15From2();
    AreasOfExperimentVessels(Tanker(4));
    assert Tanker(4).SurfaceArea() == 11007;
    AdmitFits(18993, Tanker(4), [Tanker(5)], [], [Tanker(5)], 7986);
  }

  lemma AdmitAt15()
    ensures Admit(30000, [Tanker(3), Tanker(4), Tanker(5)]) == ([Tanker(3), Tanker(4)], [Tanker(5)], 7986)
  {
    assert [Tanker(3)] + [Tanker(4), Tanker(5)] == [Tanker(3), Tanker(4), Tanker(5)];
    assert [Tanker(3)] + [Tanker(4)] == [Tanker(3), Tanker(4)];
    AdmitAt15From1();
    AreasOfExperimentVessels(Tanker(3));
    assert Tanker(3).SurfaceArea() == 11007;
    AdmitFits(30000, Tanker(3), [Tanker(4), Tanker(5)], [Tanker(4)], [Tanker(5)], 7986);
  }

  lemma StepFrom15()
    ensures Step(ExperimentLock, State15, 30.0, Fire) == Some((State16, 35.0, []))
  {
    assert State15.remainingTime == 5.0;
    assert Output(State15).None?;
    assert State15.WithWaiting(State15.currentWaterLevel, [Tanker(5)]).(vesselsInLock := [Tanker(3), Tanker(4)], currentSurfaceArea := ExperimentLock.surfaceArea, remainingTime := ExperimentLock.gateDuration as real, intervalState := Washing) == State16;
    AdmitAt15();
    IntFromClosing(ExperimentLock, State15, [Tanker(3), Tanker(4)], [Tanker(5)], 7986);
    assert IntTransition(ExperimentLock, State15) == Ok(State16);
    FireStep(ExperimentLock, State15, 30.0, State16);
  }

  lemma StepFrom16()
    ensures Step(ExperimentLock, State16, 35.0, Fire) == Some((State17, 39.0, []))
  {
    assert State16.remainingTime == 4.0;
    assert Output(State16).None?;
    IntFromWashing(ExperimentLock, State16);
    assert IntTransition(ExperimentLock, State16) == Ok(State17);
    FireStep(ExperimentLock, State16, 35.0, State17);
  }

  lemma StepFrom17()
    ensures Step(ExperimentLock, State17, 39.0, Fire) == Some((State18, 46.0, []))
  {
    assert State17.remainingTime == 7.0;
    assert Output(State17).None?;
    IntFromOpening(ExperimentLock, State17);
    assert IntTransition(ExperimentLock, State17) == Ok(State18);
    FireStep(ExperimentLock, State17, 39.0, State18);
  }

  lemma StepFrom18()
    ensures Step(ExperimentLock, State18, 46.0, Fire) == Some((State19, 50.0, [Departure(50.0, High, Tanker(3))]))
  {
    assert State18.remainingTime == 4.0;
    assert Output(State18) == Some((High, Tanker(3)));
    IntFromOpen(ExperimentLock, State18);
    assert IntTransition(ExperimentLock, State18) == Ok(State19);
    FireStep(ExperimentLock, State18, 46.0, State19);
  }

  lemma StepFrom19()
    ensures Step(ExperimentLock, State19, 50.0, Fire) == Some((State20, 60.0, [Departure(60.0, High, Tanker(4))]))
  {
    assert State19.remainingTime == 10.0;
    assert Output(State19) == Some((High, Tanker(4)));
    IntFromOpen(ExperimentLock, State19);
    assert IntTransition(ExperimentLock, State19) == Ok(State20);
    FireStep(ExperimentLock, State19, 50.0, State20);
  }

  lemma AdmitAt20From3()
    ensures Admit(7986, [Tug(8)]) == ([Tug(8)], [], 7638)
  {
    assert [Tug(8)] + [] == [Tug(8)];
    AreasOfExperimentVessels(Tug(8));
    assert Tug(8).SurfaceArea() == 348;
    AdmitFits(7986, Tug(8), [], [], [], 7638);
  }

  lemma AdmitAt20From2()
    ensures Admit(7986, [Tanker(7), Tug(8)]) == ([Tug(8)], [Tanker(7)], 7638)
  {
    assert [Tanker(7)] + [Tug(8)] == [Tanker(7), Tug(8)];
    assert [Tanker(7)] + [] == [Tanker(7)];
    AdmitAt20From3();
    AreasOfExperimentVessels(Tanker(7));
    assert Tanker(7).SurfaceArea() == 11007;
    AdmitSkips(7986, Tanker(7), [Tug(8)], [Tug(8)], [], 7638);
  }

  lemma AdmitAt20From1()
    ensures Admit(18993, [Tanker(6), Tanker(7), Tug(8)]) == ([Tanker(6), Tug(8)], [Tanker(7)], 7638)
  {
    assert [Tanker(6)] + [Tanker(7), Tug(8)] == [Tanker(6), Tanker(7), Tug(8)];
    assert [Tanker(6)] + [Tug(8)] == [Tanker(6), Tug(8)];
    AdmitAt20From2();
    AreasOfExperimentVessels(Tanker(6));
    assert Tanker(6).SurfaceArea() == 11007;
    AdmitFits(18993, Tanker(6), [Tanker(7), Tug(8)], [Tug(8)], [Tanker(7)], 7638);
  }

  lemma AdmitAt20()
    ensures Admit(30000, [Tanker(2), Tanker(6), Tanker(7), Tug(8)]) == ([Tanker(2), Tanker(6), Tug(8)], [Tanker(7)], 7638)
  {
    assert [Tanker(2)] + [Tanker(6), Tanker(7), Tug(8)] == [Tanker(2), Tanker(6), Tanker(7), Tug(8)];
    assert [Tanker(2)] + [Tanker(6), Tug(8)] == [Tanker(2), Tanker(6), Tug(8)];
    AdmitAt20From1();
    AreasOfExperimentVessels(Tanker(2));
    assert Tanker(2).SurfaceArea() == 11007;
    AdmitFits(30000, Tanker(2), [Tanker(6), Tanker(7), Tug(8)], [Tanker(6), Tug(8)], [Tanker(7)], 7638);
  }

  lemma StepFrom20()
    ensures Step(ExperimentLock, State20, 60.0, Fire) == Some((State21, 65.0, []))
  {
    assert State20.remainingTime == 5.0;
    assert Output(State20).None?;
    assert State20.WithWaiting(State20.currentWaterLevel, [Tanker(7)]).(vesselsInLock := [Tanker(2), Tanker(6), Tug(8)], currentSurfaceArea := ExperimentLock.surfaceArea, remainingTime := ExperimentLock.gateDuration as real, intervalState := Washing) == State21;
    AdmitAt20();
    IntFromClosing(ExperimentLock, State20, [Tanker(2), Tanker(6), Tug(8)], [Tanker(7)], 7638);
    assert IntTransition(ExperimentLock, State20) == Ok(State21);
    FireStep(ExperimentLock, State20, 60.0, State21);
  }

  lemma StepFrom21()
    ensures Step(ExperimentLock, State21, 65.0, Fire) == Some((State22, 69.0, []))
  {
    assert State21.remainingTime == 4.0;
    assert Output(State21).None?;
    IntFromWashing(ExperimentLock, State21);
    assert IntTransition(ExperimentLock, State21) == Ok(State22);
    FireStep(ExperimentLock, State21, 65.0, State22);
  }

  lemma StepFrom22()
    ensures Step(ExperimentLock, State22, 69.0, Fire) == Some((State23, 76.0, []))
  {
    assert State22.remainingTime == 7.0;
    assert Output(State22).None?;
    IntFromOpening(ExperimentLock, State22);
    assert IntTransition(ExperimentLock, State22) == Ok(State23);
    FireStep(ExperimentLock, State22, 69.0, State23);
  }

  lemma StepFrom23()
    ensures Step(ExperimentLock, State23, 76.0, Fire) == Some((State24, 80.0, [Departure(80.0, Low, Tanker(2))]))
  {
    assert State23.remainingTime == 4.0;
    assert Output(State23) == Some((Low, Tanker(2)));
    IntFromOpen(ExperimentLock, State23);
    assert IntTransition(ExperimentLock, State23) == Ok(State24);
    FireStep(ExperimentLock, State23, 76.0, State24);
  }

  lemma StepFrom24()
    ensures Step(ExperimentLock, State24, 80.0, Fire) == Some((State25, 90.0, [Departure(90.0, Low, Tanker(6))]))
  {
    assert State24.remainingTime == 10.0;
    assert Output(State24) == Some((Low, Tanker(6)));
    IntFromOpen(ExperimentLock, State24);
    assert IntTransition(ExperimentLock, State24) == Ok(State25);
    FireStep(ExperimentLock, State24, 80.0, State25);
  }

  lemma StepFrom25()
    ensures Step(ExperimentLock, State25, 90.0, Fire) == Some((State26, 100.0, [Departure(100.0, Low, Tug(8))]))
  {
    assert State25.remainingTime == 10.0;
    assert Output(State25) == Some((Low, Tug(8)));
    IntFromOpen(ExperimentLock, State25);
    assert IntTransition(ExperimentLock, State25) == Ok(State26);
    FireStep(ExperimentLock, State25, 90.0, State26);
  }

  lemma AdmitAt26()
    ensures Admit(30000, [Tanker(5)]) == ([Tanker(5)], [], 18993)
  {
    assert [Tanker(5)] + [] == [Tanker(5)];
    AreasOfExperimentVessels(Tanker(5));
    assert Tanker(5).SurfaceArea() == 11007;
    AdmitFits(30000, Tanker(5), [], [], [], 18993);
  }

  lemma StepFrom26()
    ensures Step(ExperimentLock, State26, 100.0, Fire) == Some((State27, 105.0, []))
  {
    assert State26.remainingTime == 5.0;
    assert Output(State26).None?;
    assert State26.WithWaiting(State26.currentWaterLevel, []).(vesselsInLock := [Tanker(5)], currentSurfaceArea := ExperimentLock.surfaceArea, remainingTime := ExperimentLock.gateDuration as real, intervalState := Washing) == State27;
    AdmitAt26();
    IntFromClosing(ExperimentLock, State26, [Tanker(5)], [], 18993);
    assert IntTransition(ExperimentLock, State26) == Ok(State27);
    FireStep(ExperimentLock, State26, 100.0, State27);
  }

  lemma StepFrom27()
    ensures Step(ExperimentLock, State27, 105.0, Fire) == Some((State28, 109.0, []))
  {
    assert State27.remainingTime == 4.0;
    assert Output(State27).None?;
    IntFromWashing(ExperimentLock, State27);
    assert IntTransition(ExperimentLock, State27) == Ok(State28);
    FireStep(ExperimentLock, State27, 105.0, State28);
  }

  lemma StepFrom28()
    ensures Step(ExperimentLock, State28, 109.0, Fire) == Some((State29, 116.0, []))
  {
    assert State28.remainingTime == 7.0;
    assert Output(State28).None?;
    IntFromOpening(ExperimentLock, State28);
    assert IntTransition(ExperimentLock, State28) == Ok(State29);
    FireStep(ExperimentLock, State28, 109.0, State29);
  }

  lemma StepFrom29()
    ensures Step(ExperimentLock, State29, 116.0, Fire) == Some((State30, 120.0, [Departure(120.0, High, Tanker(5))]))
  {
    assert State29.remainingTime == 4.0;
    assert Output(State29) == Some((High, Tanker(5)));
    IntFromOpen(ExperimentLock, State29);
    assert IntTransition(ExperimentLock, State29) == Ok(State30);
    FireStep(ExperimentLock, State29, 116.0, State30);
  }

  lemma AdmitAt30()
    ensures Admit(30000, [Tanker(7)]) == ([Tanker(7)], [], 18993)
  {
    assert [Tanker(7)] + [] == [Tanker(7)];
    AreasOfExperimentVessels(Tanker(7));
    assert Tanker(7).SurfaceArea() == 11007;
    AdmitFits(30000, Tanker(7), [], [], [], 18993);
  }

  lemma StepFrom30()
    ensures Step(ExperimentLock, State30, 120.0, Fire) == Some((State31, 125.0, []))
  {
    assert State30.remainingTime == 5.0;
    assert Output(State30).None?;
    assert State30.WithWaiting(State30.currentWaterLevel, []).(vesselsInLock := [Tanker(7)], currentSurfaceArea := ExperimentLock.surfaceArea, remainingTime := ExperimentLock.gateDuration as real, intervalState := Washing) == State31;
    AdmitAt30();
    IntFromClosing(ExperimentLock, State30, [Tanker(7)], [], 18993);
    assert IntTransition(ExperimentLock, State30) == Ok(State31);
    FireStep(ExperimentLock, State30, 120.0, State31);
  }

  lemma StepFrom31()
    ensures Step(ExperimentLock, State31, 125.0, Fire) == Some((State32, 129.0, []))
  {
    assert State31.remainingTime == 4.0;
    assert Output(State31).None?;
    IntFromWashing(ExperimentLock, State31);
    assert IntTransition(ExperimentLock, State31) == Ok(State32);
    FireStep(ExperimentLock, State31, 125.0, State32);
  }

  lemma StepFrom32()
    ensures Step(ExperimentLock, State32, 129.0, Fire) == Some((State33, 136.0, []))
  {
    assert State32.remainingTime == 7.0;
    assert Output(State32).None?;
    IntFromOpening(ExperimentLock, State32);
    assert IntTransition(ExperimentLock, State32) == Ok(State33);
    FireStep(ExperimentLock, State32, 129.0, State33);
  }

  lemma StepFrom33()
    ensures Step(ExperimentLock, State33, 136.0, Fire) == Some((State34, 140.0, [Departure(140.0, Low, Tanker(7))]))
  {
    assert State33.remainingTime == 4.0;
    assert Output(State33) == Some((Low, Tanker(7)));
    IntFromOpen(ExperimentLock, State33);
    assert IntTransition(ExperimentLock, State33) == Ok(State34);
    FireStep(ExperimentLock, State33, 136.0, State34);
  }

  lemma ReplayFrom34()
    ensures Run(ExperimentLock, State34, 140.0, EventsFrom34) == Some((State34, DeparturesFrom34))
  {
  }

  lemma ReplayFrom33()
    ensures Run(ExperimentLock, State33, 136.0, EventsFrom33) == Some((State34, DeparturesFrom33))
  {
    StepFrom33();
    ReplayFrom34();
    RunCons(ExperimentLock, State33, 136.0, Fire, EventsFrom34, State34, 140.0, [Departure(140.0, Low, Tanker(7))], State34, DeparturesFrom34);
  }

  lemma ReplayFrom32()
    ensures Run(ExperimentLock, State32, 129.0, EventsFrom32) == Some((State34, DeparturesFrom32))
  {
    StepFrom32();
    ReplayFrom33();
    RunCons(ExperimentLock, State32, 129.0, Fire, EventsFrom33, State33, 136.0, [], State34, DeparturesFrom33);
  }

  lemma ReplayFrom31()
    ensures Run(ExperimentLock, State31, 125.0, EventsFrom31) == Some((State34, DeparturesFrom31))
  {
    StepFrom31();
    ReplayFrom32();
    RunCons(ExperimentLock, State31, 125.0, Fire, EventsFrom32, State32, 129.0, [], State34, DeparturesFrom32);
  }

  lemma ReplayFrom30()
    ensures Run(ExperimentLock, State30, 120.0, EventsFrom30) == Some((State34, DeparturesFrom30))
  {
    StepFrom30();
    ReplayFrom31();
    RunCons(ExperimentLock, State30, 120.0, Fire, EventsFrom31, State31, 125.0, [], State34, DeparturesFrom31);
  }

  lemma ReplayFrom29()
    ensures Run(ExperimentLock, State29, 116.0, EventsFrom29) == Some((State34, DeparturesFrom29))
  {
    StepFrom29();
    ReplayFrom30();
    RunCons(ExperimentLock, State29, 116.0, Fire, EventsFrom30, State30, 120.0, [Departure(120.0, High, Tanker(5))], State34, DeparturesFrom30);
  }

  lemma ReplayFrom28()
    ensures Run(ExperimentLock, State28, 109.0, EventsFrom28) == Some((State34, DeparturesFrom28))
  {
    StepFrom28();
    ReplayFrom29();
    RunCons(ExperimentLock, State28, 109.0, Fire, EventsFrom29, State29, 116.0, [], State34, DeparturesFrom29);
  }

  lemma ReplayFrom27()
    ensures Run(ExperimentLock, State27, 105.0, EventsFrom27) == Some((State34, DeparturesFrom27))
  {
    StepFrom27();
    ReplayFrom28();
    RunCons(ExperimentLock, State27, 105.0, Fire, EventsFrom28, State28, 109.0, [], State34, DeparturesFrom28);
  }

  lemma ReplayFrom26()
    ensures Run(ExperimentLock, State26, 100.0, EventsFrom26) == Some((State34, DeparturesFrom26))
  {
    StepFrom26();
    ReplayFrom27();
    RunCons(ExperimentLock, State26, 100.0, Fire, EventsFrom27, State27, 105.0, [], State34, DeparturesFrom27);
  }

  lemma ReplayFrom25()
    ensures Run(ExperimentLock, State25, 90.0, EventsFrom25) == Some((State34, DeparturesFrom25))
  {
    StepFrom25();
    ReplayFrom26();
    RunCons(ExperimentLock, State25, 90.0, Fire, EventsFrom26, State26, 100.0, [Departure(100.0, Low, Tug(8))], State34, DeparturesFrom26);
  }

  lemma ReplayFrom24()
    ensures Run(ExperimentLock, State24, 80.0, EventsFrom24) == Some((State34, DeparturesFrom24))
  {
    StepFrom24();
    ReplayFrom25();
    RunCons(ExperimentLock, State24, 80.0, Fire, EventsFrom25, State25, 90.0, [Departure(90.0, Low, Tanker(6))], State34, DeparturesFrom25);
  }

  lemma ReplayFrom23()
    ensures Run(ExperimentLock, State23, 76.0, EventsFrom23) == Some((State34, DeparturesFrom23))
  {
    StepFrom23();
    ReplayFrom24();
    RunCons(ExperimentLock, State23, 76.0, Fire, EventsFrom24, State24, 80.0, [Departure(80.0, Low, Tanker(2))], State34, DeparturesFrom24);
  }

  lemma ReplayFrom22()
    ensures Run(ExperimentLock, State22, 69.0, EventsFrom22) == Some((State34, DeparturesFrom22))
  {
    StepFrom22();
    ReplayFrom23();
    RunCons(ExperimentLock, State22, 69.0, Fire, EventsFrom23, State23, 76.0, [], State34, DeparturesFrom23);
  }

  lemma ReplayFrom21()
    ensures Run(ExperimentLock, State21, 65.0, EventsFrom21) == Some((State34, DeparturesFrom21))
  {
    StepFrom21();
    ReplayFrom22();
    RunCons(ExperimentLock, State21, 65.0, Fire, EventsFrom22, State22, 69.0, [], State34, DeparturesFrom22);
  }

  lemma ReplayFrom20()
    ensures Run(ExperimentLock, State20, 60.0, EventsFrom20) == Some((State34, DeparturesFrom20))
  {
    StepFrom20();
    ReplayFrom21();
    RunCons(ExperimentLock, State20, 60.0, Fire, EventsFrom21, State21, 65.0, [], State34, DeparturesFrom21);
  }

  lemma ReplayFrom19()
    ensures Run(ExperimentLock, State19, 50.0, EventsFrom19) == Some((State34, DeparturesFrom19))
  {
    StepFrom19();
    ReplayFrom20();
    RunCons(ExperimentLock, State19, 50.0, Fire, EventsFrom20, State20, 60.0, [Departure(60.0, High, Tanker(4))], State34, DeparturesFrom20);
  }

  lemma ReplayFrom18()
    ensures Run(ExperimentLock, State18, 46.0, EventsFrom18) == Some((State34, DeparturesFrom18))
  {
    StepFrom18();
    ReplayFrom19();
    RunCons(ExperimentLock, State18, 46.0, Fire, EventsFrom19, State19, 50.0, [Departure(50.0, High, Tanker(3))], State34, DeparturesFrom19);
  }

  lemma ReplayFrom17()
    ensures Run(ExperimentLock, State17, 39.0, EventsFrom17) == Some((State34, DeparturesFrom17))
  {
    StepFrom17();
    ReplayFrom18();
    RunCons(ExperimentLock, State17, 39.0, Fire, EventsFrom18, State18, 46.0, [], State34, DeparturesFrom18);
  }

  lemma ReplayFrom16()
    ensures Run(ExperimentLock, State16, 35.0, EventsFrom16) == Some((State34, DeparturesFrom16))
  {
    StepFrom16();
    ReplayFrom17();
    RunCons(ExperimentLock, State16, 35.0, Fire, EventsFrom17, State17, 39.0, [], State34, DeparturesFrom17);
  }

  lemma ReplayFrom15()
    ensures Run(ExperimentLock, State15, 30.0, EventsFrom15) == Some((State34, DeparturesFrom15))
  {
    StepFrom15();
    ReplayFrom16();
    RunCons(ExperimentLock, State15, 30.0, Fire, EventsFrom16, State16, 35.0, [], State34, DeparturesFrom16);
  }

  lemma ReplayFrom14()
    ensures Run(ExperimentLock, State14, 20.0, EventsFrom14) == Some((State34, DeparturesFrom14))
  {
    StepFrom14();
    ReplayFrom15();
    RunCons(ExperimentLock, State14, 20.0, Fire, EventsFrom15, State15, 30.0, [Departure(30.0, Low, Tanker(1))], State34, DeparturesFrom15);
  }

  lemma ReplayFrom13()
    ensures Run(ExperimentLock, State13, 16.0, EventsFrom13) == Some((State34, DeparturesFrom13))
  {
    StepFrom13();
    ReplayFrom14();
    RunCons(ExperimentLock, State13, 16.0, Fire, EventsFrom14, State14, 20.0, [Departure(20.0, Low, Tanker(0))], State34, DeparturesFrom14);
  }

  lemma ReplayFrom12()
    ensures Run(ExperimentLock, State12, 9.0, EventsFrom12) == Some((State34, DeparturesFrom12))
  {
    StepFrom12();
    ReplayFrom13();
    RunCons(ExperimentLock, State12, 9.0, Fire, EventsFrom13, State13, 16.0, [], State34, DeparturesFrom13);
  }

  lemma ReplayFrom11()
    ensures Run(ExperimentLock, State11, 8.0, EventsFrom11) == Some((State34, DeparturesFrom11))
  {
    StepFrom11();
    ReplayFrom12();
    RunCons(ExperimentLock, State11, 8.0, Fire, EventsFrom12, State12, 9.0, [], State34, DeparturesFrom12);
  }

  lemma ReplayFrom10()
    ensures Run(ExperimentLock, State10, 7.0, EventsFrom10) == Some((State34, DeparturesFrom10))
  {
    StepFrom10();
    ReplayFrom11();
    RunCons(ExperimentLock, State10, 7.0, Arrive(1.0, None, Some(Tug(8))), EventsFrom11, State11, 8.0, [], State34, DeparturesFrom11);
  }

  lemma ReplayFrom9()
    ensures Run(ExperimentLock, State9, 6.0, EventsFrom9) == Some((State34, DeparturesFrom9))
  {
    StepFrom9();
    ReplayFrom10();
    RunCons(ExperimentLock, State9, 6.0, Arrive(1.0, None, Some(Tanker(7))), EventsFrom10, State10, 7.0, [], State34, DeparturesFrom10);
  }

  lemma ReplayFrom8()
    ensures Run(ExperimentLock, State8, 5.0, EventsFrom8) == Some((State34, DeparturesFrom8))
  {
    StepFrom8();
    ReplayFrom9();
    RunCons(ExperimentLock, State8, 5.0, Arrive(1.0, None, Some(Tanker(6))), EventsFrom9, State9, 6.0, [], State34, DeparturesFrom9);
  }

  lemma ReplayFrom7()
    ensures Run(ExperimentLock, State7, 5.0, EventsFrom7) == Some((State34, DeparturesFrom7))
  {
    StepFrom7();
    ReplayFrom8();
    RunCons(ExperimentLock, State7, 5.0, Arrive(0.0, Some(Tanker(5)), None), EventsFrom8, State8, 5.0, [], State34, DeparturesFrom8);
  }

  lemma ReplayFrom6()
    ensures Run(ExperimentLock, State6, 4.0, EventsFrom6) == Some((State34, DeparturesFrom6))
  {
    StepFrom6();
    ReplayFrom7();
    RunCons(ExperimentLock, State6, 4.0, Fire, EventsFrom7, State7, 5.0, [], State34, DeparturesFrom7);
  }

  lemma ReplayFrom5()
    ensures Run(ExperimentLock, State5, 3.0, EventsFrom5) == Some((State34, DeparturesFrom5))
  {
    StepFrom5();
    ReplayFrom6();
    RunCons(ExperimentLock, State5, 3.0, Arrive(1.0, Some(Tanker(4)), None), EventsFrom6, State6, 4.0, [], State34, DeparturesFrom6);
  }

  lemma ReplayFrom4()
    ensures Run(ExperimentLock, State4, 2.0, EventsFrom4) == Some((State34, DeparturesFrom4))
  {
    StepFrom4();
    ReplayFrom5();
    RunCons(ExperimentLock, State4, 2.0, Arrive(1.0, Some(Tanker(3)), None), EventsFrom5, State5, 3.0, [], State34, DeparturesFrom5);
  }

  lemma ReplayFrom3()
    ensures Run(ExperimentLock, State3, 1.0, EventsFrom3) == Some((State34, DeparturesFrom3))
  {
    StepFrom3();
    ReplayFrom4();
    RunCons(ExperimentLock, State3, 1.0, Arrive(1.0, None, Some(Tanker(2))), EventsFrom4, State4, 2.0, [], State34, DeparturesFrom4);
  }

  lemma ReplayFrom2()
    ensures Run(ExperimentLock, State2, 0.0, EventsFrom2) == Some((State34, DeparturesFrom2))
  {
    StepFrom2();
    ReplayFrom3();
    RunCons(ExperimentLock, State2, 0.0, Arrive(1.0, None, Some(Tanker(1))), EventsFrom3, State3, 1.0, [], State34, DeparturesFrom3);
  }

  lemma ReplayFrom1()
    ensures Run(ExperimentLock, State1, 0.0, EventsFrom1) == Some((State34, DeparturesFrom1))
  {
    StepFrom1();
    ReplayFrom2();
    RunCons(ExperimentLock, State1, 0.0, Arrive(0.0, None, Some(Tanker(0))), EventsFrom2, State2, 0.0, [], State34, DeparturesFrom2);
  }

  lemma ReplayFrom0()
    ensures Run(ExperimentLock, State0, 0.0, EventsFrom0) == Some((State34, DeparturesFrom0))
  {
    StepFrom0();
    ReplayFrom1();
    RunCons(ExperimentLock, State0, 0.0, Fire, EventsFrom1, State1, 0.0, [], State34, DeparturesFrom1);
  }


  /** Uid and time in the system of every vessel that left on the out-port
      of level `w`, in order of departure. */
  function Sojourns(ds: seq<Departure>, w: WaterLevel): seq<(int, real)>
    decreases |ds|
  {
    if |ds| == 0 then []
    else (if ds[0].level == w then [(ds[0].vessel.uid, ds[0].time - ds[0].vessel.creationTime)] else [])
         + Sojourns(ds[1..], w)
  }

  const ExperimentDepartures: seq<Departure> :=
    [Departure(20.0, Low, Tanker(0)), Departure(30.0, Low, Tanker(1)), Departure(50.0, High, Tanker(3)),
     Departure(60.0, High, Tanker(4)), Departure(80.0, Low, Tanker(2)), Departure(90.0, Low, Tanker(6)),
     Departure(100.0, Low, Tug(8)), Departure(120.0, High, Tanker(5)), Departure(140.0, Low, Tanker(7))]

  /** The experiment's expected outcome: two tankers leave on the low side
      after the first cycle, the third waits for lack of room while the tug
      that came later joins it two cycles later, and every vessel's time in
      the system is the one the experiment expects. */
  lemma {:induction false} LockExperiment()
    ensures Run(ExperimentLock, Initial(ExperimentLock), 0.0, EventsFrom0) == Some((State34, ExperimentDepartures))
    ensures Sojourns(ExperimentDepartures, Low) == [(0, 20.0), (1, 29.0), (2, 78.0), (6, 84.0), (8, 92.0), (7, 133.0)]
    ensures Sojourns(ExperimentDepartures, High) == [(3, 47.0), (4, 56.0), (5, 115.0)]
  {
    ReplayFrom0();
    assert Initial(ExperimentLock) == State0;
    DeparturesAreExpected();
    SojournsOnLowSide();
    SojournsOnHighSide();
  }

  lemma DeparturesAreExpected()
    ensures DeparturesFrom0 == ExperimentDepartures
  {
  }

  lemma SojournsOnLowSide()
    ensures Sojourns(ExperimentDepartures, Low) == [(0, 20.0), (1, 29.0), (2, 78.0), (6, 84.0), (8, 92.0), (7, 133.0)]
  {
  }

  lemma SojournsOnHighSide()
    ensures Sojourns(ExperimentDepartures, High) == [(3, 47.0), (4, 56.0), (5, 115.0)]
  {
  }
}
