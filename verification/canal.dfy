/** models/canal.py: a two-way canal held in one atomic component.  Each
    direction is a FIFO queue of vessel records with speed coupling to the
    vessel in front, and a single schedule points at the queue whose head
    leaves next. */
module Canal {
  import opened Wrappers
  import opened Devs
  import opened Units
  import opened Vessels
  import opened Messages
  import opened Timers

  /** Constructor parameter of `Canal(name, distance_in_km)`. */
  datatype Config = Config(distanceKm: real)

  /** Direction 1 travels from `in1` to `out1`, direction 2 from `in2` to
      `out2`. */
  datatype Direction = One | Two {
    function Other(): (o: Direction)
      ensures o != this
    {
      if One? then Two else One
    }
  }

  datatype VesselRecord = VesselRecord(vessel: Vessel, timer: real)

  /** `CanalState`; `queueForNextOutput` names the list that the source's
      state refers to by identity. */
  datatype CanalState = CanalState(
    remainingTime: Time,
    records1: seq<VesselRecord>,
    records2: seq<VesselRecord>,
    queueForNextOutput: Option<Direction>)
  {
    function Queue(d: Direction): seq<VesselRecord> {
      if d.One? then records1 else records2
    }

    function WithQueue(d: Direction, q: seq<VesselRecord>): (r: CanalState)
      ensures r.Queue(d) == q && r.Queue(d.Other()) == Queue(d.Other())
      ensures r.remainingTime == remainingTime && r.queueForNextOutput == queueForNextOutput
    {
      if d.One? then this.(records1 := q) else this.(records2 := q)
    }

    predicate IsEmpty() {
      |records1| == 0 && |records2| == 0
    }
  }

  function VesselsOf(rs: seq<VesselRecord>): (vs: seq<Vessel>)
    ensures |vs| == |rs| && forall i :: 0 <= i < |rs| ==> vs[i] == rs[i].vessel
  {
    seq(|rs|, i requires 0 <= i < |rs| => rs[i].vessel)
  }

  /** The "ignore an event" decrement applied to every record. */
  function LowerRecords(rs: seq<VesselRecord>, d: real): (r: seq<VesselRecord>)
    ensures |r| == |rs| && VesselsOf(r) == VesselsOf(rs)
    ensures forall i :: 0 <= i < |rs| ==> r[i].vessel == rs[i].vessel && r[i].timer + d == rs[i].timer
  {
    seq(|rs|, i requires 0 <= i < |rs| => VesselRecord(rs[i].vessel, rs[i].timer - d))
  }

  /** What every reachable state satisfies: passive exactly when both queues
      are empty, and otherwise a schedule pointing at a non-empty queue. */
  predicate Valid(s: CanalState) {
    && (s.IsEmpty() <==> s.remainingTime.Inf?)
    && (!s.IsEmpty() ==> s.queueForNextOutput.Some? && |s.Queue(s.queueForNextOutput.value)| > 0)
  }

  /** The schedule the component is meant to keep: the time advance is the
      timer of the selected head, and no head of the other direction is
      due earlier. */
  predicate Scheduled(s: CanalState) {
    && Valid(s)
    && (!s.IsEmpty() ==>
          var d := s.queueForNextOutput.value;
          && s.remainingTime == Fin(s.Queue(d)[0].timer)
          && (|s.Queue(d.Other())| > 0 ==> s.Queue(d)[0].timer <= s.Queue(d.Other())[0].timer))
  }

  function Initial(): (s: CanalState)
    ensures Scheduled(s) && s.IsEmpty() && s.queueForNextOutput.None?
  {
    CanalState(Inf, [], [], None)
  }

  /** The timer of a vessel joining queue `q`: its own average velocity when
      alone in its direction, otherwise the slower of its own and that of
      the last vessel already queued.  Over a positive distance a vessel
      behind another is therefore slowed down to match it: its timer is the
      longer of the two solo travel times, never shorter than the last
      vessel's own. */
  function JoiningTimer(c: Config, q: seq<VesselRecord>, v: Vessel): (t: real)
    ensures |q| == 0 ==> t == TimeInSeconds(c.distanceKm, v.AvgVelocity())
    ensures c.distanceKm > 0.0 && |q| > 0 ==>
              t == Max(TimeInSeconds(c.distanceKm, v.AvgVelocity()),
                       TimeInSeconds(c.distanceKm, q[|q| - 1].vessel.AvgVelocity()))
              && t >= TimeInSeconds(c.distanceKm, q[|q| - 1].vessel.AvgVelocity())
    ensures |q| > 0 && v.AvgVelocity() <= q[|q| - 1].vessel.AvgVelocity() ==>
              t == TimeInSeconds(c.distanceKm, v.AvgVelocity())
    ensures |q| > 0 && q[|q| - 1].vessel.AvgVelocity() <= v.AvgVelocity() ==>
              t == TimeInSeconds(c.distanceKm, q[|q| - 1].vessel.AvgVelocity())
  {
    ClassConstantsAreSane(v.vesselClass);
    if |q| == 0 then TimeInSeconds(c.distanceKm, v.AvgVelocity())
    else
      var front := q[|q| - 1].vessel;
      ClassConstantsAreSane(front.vesselClass);
      if c.distanceKm > 0.0 then
        MinVelocityNeverShorter(c.distanceKm, v.AvgVelocity(), front.AvgVelocity());
        MinVelocityNeverShorter(c.distanceKm, front.AvgVelocity(), v.AvgVelocity());
        TimeInSeconds(c.distanceKm, if v.AvgVelocity() <= front.AvgVelocity() then v.AvgVelocity() else front.AvgVelocity())
      else
        TimeInSeconds(c.distanceKm, if v.AvgVelocity() <= front.AvgVelocity() then v.AvgVelocity() else front.AvgVelocity())
  }

  /** `enqueue_vessel_record`: the vessel's record joins the tail of its
      direction.  A vessel alone in its direction takes over the schedule
      only when it would leave strictly sooner than the current time
      advance; a vessel joining a non-empty direction never changes the
      schedule.  A non-vessel input fails the source's assertion. */
  function EnqueueVesselRecord(c: Config, s: CanalState, m: Message, d: Direction): (r: Result<CanalState>)
    ensures r.Ok? <==> m.VesselMsg?
    ensures r.Ok? ==> r.value.Queue(d) == s.Queue(d) + [VesselRecord(m.vessel, JoiningTimer(c, s.Queue(d), m.vessel))]
    ensures r.Ok? ==> r.value.Queue(d.Other()) == s.Queue(d.Other())
    ensures r.Ok? ==>
              var t := JoiningTimer(c, s.Queue(d), m.vessel);
              if |s.Queue(d)| == 0 && s.remainingTime.Exceeds(t)
              then r.value.remainingTime == Fin(t) && r.value.queueForNextOutput == Some(d)
              else r.value.remainingTime == s.remainingTime && r.value.queueForNextOutput == s.queueForNextOutput
  {
    if !m.VesselMsg? then Err("enqueue_vessel_record: input is not a vessel")
    else
      var q := s.Queue(d);
      var timer := JoiningTimer(c, q, m.vessel);
      var joined := s.WithQueue(d, q + [VesselRecord(m.vessel, timer)]);
      if |q| == 0 && s.remainingTime.Exceeds(timer) then
        Ok(joined.(remainingTime := Fin(timer), queueForNextOutput := Some(d)))
      else
        Ok(joined)
  }

  /** The vessels arriving on one in-port. */
  function ArrivingOn(m: Option<Message>): seq<Vessel> {
    if m.Some? && m.value.VesselMsg? then [m.value.vessel] else []
  }

  predicate Acceptable(m: Option<Message>) {
    m.None? || m.value.VesselMsg?
  }

  /** Enqueue what arrived on the in-port of direction `d`, if anything. */
  function AcceptOn(c: Config, s: CanalState, m: Option<Message>, d: Direction): (r: Result<CanalState>)
    requires Valid(s)
    ensures r.Ok? <==> Acceptable(m)
    ensures r.Ok? ==> Valid(r.value)
    ensures r.Ok? ==> VesselsOf(r.value.Queue(d)) == VesselsOf(s.Queue(d)) + ArrivingOn(m)
    ensures r.Ok? ==> forall i :: 0 <= i < |s.Queue(d)| ==> r.value.Queue(d)[i] == s.Queue(d)[i]
    ensures r.Ok? ==> r.value.Queue(d.Other()) == s.Queue(d.Other())
    ensures r.Ok? && !s.IsEmpty() && r.value.queueForNextOutput == s.queueForNextOutput ==>
              r.value.remainingTime == s.remainingTime
    ensures r.Ok? && Scheduled(s) ==> Scheduled(r.value)
  {
    if m.None? then Ok(s)
    else
      var r := EnqueueVesselRecord(c, s, m.value, d);
      if r.Ok? then
        assert VesselsOf(r.value.Queue(d)) == VesselsOf(s.Queue(d)) + ArrivingOn(m);
        r
      else r
  }

  /** Enqueue what arrived on `in1`, then what arrived on `in2`. */
  function Accept(c: Config, s: CanalState, in1: Option<Message>, in2: Option<Message>): (r: Result<CanalState>)
    requires Valid(s)
    ensures r.Ok? <==> Acceptable(in1) && Acceptable(in2)
    ensures r.Ok? ==> Valid(r.value)
    ensures r.Ok? ==> VesselsOf(r.value.records1) == VesselsOf(s.records1) + ArrivingOn(in1)
    ensures r.Ok? ==> VesselsOf(r.value.records2) == VesselsOf(s.records2) + ArrivingOn(in2)
    ensures r.Ok? ==> forall i :: 0 <= i < |s.records1| ==> r.value.records1[i] == s.records1[i]
    ensures r.Ok? ==> forall i :: 0 <= i < |s.records2| ==> r.value.records2[i] == s.records2[i]
    ensures r.Ok? && !s.IsEmpty() && r.value.queueForNextOutput == s.queueForNextOutput ==>
              r.value.remainingTime == s.remainingTime
    ensures r.Ok? && Scheduled(s) ==> Scheduled(r.value)
  {
    var s1 := AcceptOn(c, s, in1, One);
    if s1.Err? then s1
    else AcceptOn(c, s1.value, in2, Two)
  }

  /** Both queues lowered by `d`; the schedule itself is left alone. */
  function LowerQueues(s: CanalState, d: real): (r: CanalState)
    ensures r.remainingTime == s.remainingTime && r.queueForNextOutput == s.queueForNextOutput
    ensures r.records1 == LowerRecords(s.records1, d) && r.records2 == LowerRecords(s.records2, d)
    ensures Valid(s) ==> Valid(r)
  {
    s.(records1 := LowerRecords(s.records1, d), records2 := LowerRecords(s.records2, d))
  }

  /** `extTransition` as the source writes it: every record timer in both
      directions is lowered by the elapsed time, but the time advance is
      not, so unless the schedule moves to a new vessel the departure it
      points at is pushed back by `e`. */
  function ExtTransitionAsWritten(c: Config, s: CanalState, e: real, in1: Option<Message>, in2: Option<Message>): (r: Result<CanalState>)
    requires Valid(s) && 0.0 <= e && s.remainingTime.AtLeast(e)
    ensures r.Ok? <==> Acceptable(in1) && Acceptable(in2)
    ensures r.Ok? ==> Valid(r.value)
    ensures r.Ok? ==> VesselsOf(r.value.records1) == VesselsOf(s.records1) + ArrivingOn(in1)
    ensures r.Ok? ==> VesselsOf(r.value.records2) == VesselsOf(s.records2) + ArrivingOn(in2)
    ensures r.Ok? ==> forall i :: 0 <= i < |s.records1| ==> r.value.records1[i].timer + e == s.records1[i].timer
    ensures r.Ok? ==> forall i :: 0 <= i < |s.records2| ==> r.value.records2[i].timer + e == s.records2[i].timer
    ensures r.Ok? && !s.IsEmpty() && r.value.queueForNextOutput == s.queueForNextOutput ==>
              r.value.remainingTime == s.remainingTime
  {
    Accept(c, LowerQueues(s, e), in1, in2)
  }

  /** `extTransition` with the time advance lowered together with the record
      timers, so that the scheduled head keeps its absolute deadline and the
      schedule stays on the earliest head. */
  function ExtTransition(c: Config, s: CanalState, e: real, in1: Option<Message>, in2: Option<Message>): (r: Result<CanalState>)
    requires Scheduled(s) && 0.0 <= e && s.remainingTime.AtLeast(e)
    ensures r.Ok? <==> Acceptable(in1) && Acceptable(in2)
    ensures r.Ok? ==> Scheduled(r.value)
    ensures r.Ok? ==> VesselsOf(r.value.records1) == VesselsOf(s.records1) + ArrivingOn(in1)
    ensures r.Ok? ==> VesselsOf(r.value.records2) == VesselsOf(s.records2) + ArrivingOn(in2)
    ensures r.Ok? ==> forall i :: 0 <= i < |s.records1| ==> r.value.records1[i].timer + e == s.records1[i].timer
    ensures r.Ok? ==> forall i :: 0 <= i < |s.records2| ==> r.value.records2[i].timer + e == s.records2[i].timer
    ensures r.Ok? && !s.IsEmpty() && r.value.queueForNextOutput == s.queueForNextOutput ==>
              r.value.remainingTime.Fin? && r.value.remainingTime.value + e == s.remainingTime.value
  {
    var lowered := LowerQueues(s, e);
    var rescheduled := if s.remainingTime.Fin? then lowered.(remainingTime := Fin(s.remainingTime.value - e)) else lowered;
    assert Scheduled(rescheduled);
    Accept(c, rescheduled, in1, in2)
  }

  /** `outputFnc`: the head of the selected queue, on the out-port of its
      direction.  Having no selection fails the source's assertion. */
  function Output(s: CanalState): (r: Result<(Direction, Vessel)>)
    ensures r.Ok? <==> s.queueForNextOutput.Some? && |s.Queue(s.queueForNextOutput.value)| > 0
    ensures r.Ok? ==> r.value == (s.queueForNextOutput.value, s.Queue(s.queueForNextOutput.value)[0].vessel)
  {
    match s.queueForNextOutput
    case None => Err("outputFnc: no queue selected")
    case Some(d) =>
      if |s.Queue(d)| > 0 then Ok((d, s.Queue(d)[0].vessel)) else Err("outputFnc: index out of range")
  }

  /** Direction 1 holds vessels and its head is due strictly before any
      head of direction 2. */
  predicate OneIsStrictlyEarlier(s: CanalState) {
    |s.records1| > 0 && (|s.records2| == 0 || s.records1[0].timer < s.records2[0].timer)
  }

  /** Whichever direction holds the earlier head; on a tie, or when only
      direction 2 holds vessels, direction 2. */
  function EarlierHead(s: CanalState): (d: Direction)
    requires !s.IsEmpty()
    ensures |s.Queue(d)| > 0
    ensures |s.Queue(d.Other())| > 0 ==> s.Queue(d)[0].timer <= s.Queue(d.Other())[0].timer
    ensures d == One <==> OneIsStrictlyEarlier(s)
  {
    if |s.records1| == 0 then Two
    else if |s.records2| == 0 then One
    else if s.records1[0].timer < s.records2[0].timer then One
    else Two
  }

  /** Both queues lowered by `dt`, and the earlier head selected. */
  function Reschedule(popped: CanalState, dt: real): (r: CanalState)
    requires !popped.IsEmpty()
    ensures Scheduled(r) && !r.IsEmpty()
    ensures forall d: Direction :: r.Queue(d) == LowerRecords(popped.Queue(d), dt)
    ensures r.queueForNextOutput == Some(One) <==> OneIsStrictlyEarlier(r)
  {
    var lowered := LowerQueues(popped, dt);
    var next := EarlierHead(lowered);
    lowered.(remainingTime := Fin(lowered.Queue(next)[0].timer), queueForNextOutput := Some(next))
  }

  /** `intTransition`: only the selected head leaves; the rest of both
      queues are lowered by the time that passed and the earlier head is
      selected, or the canal becomes passive.  Whatever the state before,
      the result carries the intended schedule. */
  function IntTransition(s: CanalState): (r: Result<CanalState>)
    requires Valid(s)
    ensures r.Ok? <==> !s.IsEmpty()
    ensures r.Ok? ==> Scheduled(r.value)
    ensures r.Ok? && !r.value.IsEmpty() ==> (r.value.queueForNextOutput == Some(One) <==> OneIsStrictlyEarlier(r.value))
    ensures r.Ok? ==>
              var d := s.queueForNextOutput.value;
              && VesselsOf(r.value.Queue(d)) == VesselsOf(s.Queue(d))[1..]
              && VesselsOf(r.value.Queue(d.Other())) == VesselsOf(s.Queue(d.Other()))
    ensures r.Ok? && !r.value.IsEmpty() ==>
              var d := s.queueForNextOutput.value;
              && (forall i :: 0 <= i < |r.value.Queue(d)| ==>
                    r.value.Queue(d)[i].timer + s.remainingTime.value == s.Queue(d)[i + 1].timer)
              && (forall i :: 0 <= i < |r.value.Queue(d.Other())| ==>
                    r.value.Queue(d.Other())[i].timer + s.remainingTime.value == s.Queue(d.Other())[i].timer)
  {
    if s.IsEmpty() then Err("intTransition: pop from empty list")
    else
      var d := s.queueForNextOutput.value;
      var popped := s.WithQueue(d, s.Queue(d)[1..]);
      if popped.IsEmpty() then Ok(popped.(remainingTime := Inf))
      else Ok(Reschedule(popped, s.remainingTime.value))
  }

  // -----------------------------------------------------------------------
  // The source's experiment on a 19.8164 km canal: a Crude Oil Tanker and a
  // Bulk Carrier enter direction 1 at t = 0 and t = 10, another tanker and
  // carrier enter direction 2 at t = 5 and t = 15.  Every vessel is meant to
  // spend exactly 3600 s in the canal.

  function ExperimentCanal(): Config { Config(19.8164) }
  function Tanker0(): Vessel { NewVessel(CrudeOilTanker, 0, 0.0) }
  function Carrier1(): Vessel { NewVessel(BulkCarrier, 1, 10.0) }
  function Tanker2(): Vessel { NewVessel(CrudeOilTanker, 2, 5.0) }
  function Carrier3(): Vessel { NewVessel(BulkCarrier, 3, 15.0) }

  function In(v: Vessel): Option<Message> { Some(VesselMsg(v)) }

  /** After the first arrival (t = 0). */
  function First(): CanalState {
    CanalState(Fin(3600.0), [VesselRecord(Tanker0(), 3600.0)], [], Some(One))
  }

  lemma TankerEntersDirectionOne()
    ensures ExtTransition(ExperimentCanal(), Initial(), 0.0, In(Tanker0()), None) == Ok(First())
    ensures ExtTransitionAsWritten(ExperimentCanal(), Initial(), 0.0, In(Tanker0()), None) == Ok(First())
  {
    CalibrationDistances();
    assert JoiningTimer(ExperimentCanal(), [], Tanker0()) == 3600.0;
    var r := ExtTransition(ExperimentCanal(), Initial(), 0.0, In(Tanker0()), None).value;
    assert r.records1 == First().records1;
    var w := ExtTransitionAsWritten(ExperimentCanal(), Initial(), 0.0, In(Tanker0()), None).value;
    assert w.records1 == First().records1;
  }

  // As written: the time advance stays at 3600 through three arrivals.

  function Written2(): CanalState {
    CanalState(Fin(3600.0), [VesselRecord(Tanker0(), 3595.0)], [VesselRecord(Tanker2(), 3600.0)], Some(One))
  }

  function Written3(): CanalState {
    CanalState(Fin(3600.0), [VesselRecord(Tanker0(), 3590.0), VesselRecord(Carrier1(), 3600.0)],
               [VesselRecord(Tanker2(), 3595.0)], Some(One))
  }

  function Written4(): CanalState {
    CanalState(Fin(3600.0), [VesselRecord(Tanker0(), 3585.0), VesselRecord(Carrier1(), 3595.0)],
               [VesselRecord(Tanker2(), 3590.0), VesselRecord(Carrier3(), 3600.0)], Some(One))
  }

  function WrittenAfterPop(): CanalState {
    CanalState(Fin(-10.0), [VesselRecord(Carrier1(), -5.0)],
               [VesselRecord(Tanker2(), -10.0), VesselRecord(Carrier3(), 0.0)], Some(Two))
  }

  lemma WrittenSecondArrival()
    ensures ExtTransitionAsWritten(ExperimentCanal(), First(), 5.0, None, In(Tanker2())) == Ok(Written2())
  {
    CalibrationDistances();
    assert JoiningTimer(ExperimentCanal(), [], Tanker2()) == 3600.0;
    var w := ExtTransitionAsWritten(ExperimentCanal(), First(), 5.0, None, In(Tanker2())).value;
    assert w.records1 == Written2().records1;
    assert w.records2 == Written2().records2;
  }

  lemma WrittenThirdArrival()
    ensures ExtTransitionAsWritten(ExperimentCanal(), Written2(), 5.0, In(Carrier1()), None) == Ok(Written3())
  {
    CalibrationDistances();
    assert JoiningTimer(ExperimentCanal(), LowerRecords(Written2().records1, 5.0), Carrier1()) == 3600.0;
    var w := ExtTransitionAsWritten(ExperimentCanal(), Written2(), 5.0, In(Carrier1()), None).value;
    assert w.records1 == Written3().records1;
    assert w.records2 == Written3().records2;
  }

  lemma WrittenFourthArrival()
    ensures ExtTransitionAsWritten(ExperimentCanal(), Written3(), 5.0, None, In(Carrier3())) == Ok(Written4())
  {
    CalibrationDistances();
    assert JoiningTimer(ExperimentCanal(), LowerRecords(Written3().records2, 5.0), Carrier3()) == 3600.0;
    var w := ExtTransitionAsWritten(ExperimentCanal(), Written3(), 5.0, None, In(Carrier3())).value;
    assert w.records1 == Written4().records1;
    assert w.records2 == Written4().records2;
  }

  lemma WrittenFirstDeparture()
    ensures IntTransition(Written4()) == Ok(WrittenAfterPop())
  {
    var r := IntTransition(Written4()).value;
    assert r.records1 == WrittenAfterPop().records1;
    assert r.records2 == WrittenAfterPop().records2;
  }

  /** The drift, as written: after the last arrival at t = 15 the time
      advance is still 3600, so the tanker that entered at t = 0 leaves at
      t = 3615 instead of t = 3600, and the next time advance is negative. */
  lemma DriftScenario()
    ensures ExtTransitionAsWritten(ExperimentCanal(), Initial(), 0.0, In(Tanker0()), None) == Ok(First())
    ensures ExtTransitionAsWritten(ExperimentCanal(), First(), 5.0, None, In(Tanker2())) == Ok(Written2())
    ensures ExtTransitionAsWritten(ExperimentCanal(), Written2(), 5.0, In(Carrier1()), None) == Ok(Written3())
    ensures ExtTransitionAsWritten(ExperimentCanal(), Written3(), 5.0, None, In(Carrier3())) == Ok(Written4())
    ensures Written4().remainingTime == Fin(3600.0) && Output(Written4()) == Ok((One, Tanker0()))
    ensures IntTransition(Written4()) == Ok(WrittenAfterPop()) && WrittenAfterPop().remainingTime == Fin(-10.0)
  {
    TankerEntersDirectionOne();
    WrittenSecondArrival();
    WrittenThirdArrival();
    WrittenFourthArrival();
    WrittenFirstDeparture();
  }

  // Corrected: the time advance follows the head's deadline.

  function Fixed2(): CanalState {
    CanalState(Fin(3595.0), [VesselRecord(Tanker0(), 3595.0)], [VesselRecord(Tanker2(), 3600.0)], Some(One))
  }

  function Fixed3(): CanalState {
    CanalState(Fin(3590.0), [VesselRecord(Tanker0(), 3590.0), VesselRecord(Carrier1(), 3600.0)],
               [VesselRecord(Tanker2(), 3595.0)], Some(One))
  }

  function Fixed4(): CanalState {
    CanalState(Fin(3585.0), [VesselRecord(Tanker0(), 3585.0), VesselRecord(Carrier1(), 3595.0)],
               [VesselRecord(Tanker2(), 3590.0), VesselRecord(Carrier3(), 3600.0)], Some(One))
  }

  function Popped1(): CanalState {
    CanalState(Fin(5.0), [VesselRecord(Carrier1(), 10.0)],
               [VesselRecord(Tanker2(), 5.0), VesselRecord(Carrier3(), 15.0)], Some(Two))
  }

  function Popped2(): CanalState {
    CanalState(Fin(5.0), [VesselRecord(Carrier1(), 5.0)], [VesselRecord(Carrier3(), 10.0)], Some(One))
  }

  function Popped3(): CanalState {
    CanalState(Fin(5.0), [], [VesselRecord(Carrier3(), 5.0)], Some(Two))
  }

  lemma FixedSecondArrival()
    ensures ExtTransition(ExperimentCanal(), First(), 5.0, None, In(Tanker2())) == Ok(Fixed2())
  {
    CalibrationDistances();
    assert JoiningTimer(ExperimentCanal(), [], Tanker2()) == 3600.0;
    var r := ExtTransition(ExperimentCanal(), First(), 5.0, None, In(Tanker2())).value;
    assert r.records1 == Fixed2().records1;
    assert r.records2 == Fixed2().records2;
  }

  lemma FixedThirdArrival()
    ensures ExtTransition(ExperimentCanal(), Fixed2(), 5.0, In(Carrier1()), None) == Ok(Fixed3())
  {
    CalibrationDistances();
    assert JoiningTimer(ExperimentCanal(), LowerRecords(Fixed2().records1, 5.0), Carrier1()) == 3600.0;
    var r := ExtTransition(ExperimentCanal(), Fixed2(), 5.0, In(Carrier1()), None).value;
    assert r.records1 == Fixed3().records1;
    assert r.records2 == Fixed3().records2;
  }

  lemma FixedFourthArrival()
    ensures ExtTransition(ExperimentCanal(), Fixed3(), 5.0, None, In(Carrier3())) == Ok(Fixed4())
  {
    CalibrationDistances();
    assert JoiningTimer(ExperimentCanal(), LowerRecords(Fixed3().records2, 5.0), Carrier3()) == 3600.0;
    var r := ExtTransition(ExperimentCanal(), Fixed3(), 5.0, None, In(Carrier3())).value;
    assert r.records1 == Fixed4().records1;
    assert r.records2 == Fixed4().records2;
  }

  lemma FixedFirstDeparture()
    ensures IntTransition(Fixed4()) == Ok(Popped1())
  {
    var r := IntTransition(Fixed4()).value;
    assert r.records1 == Popped1().records1 && r.records2 == Popped1().records2;
  }

  lemma FixedSecondDeparture()
    ensures IntTransition(Popped1()) == Ok(Popped2())
  {
    var r := IntTransition(Popped1()).value;
    assert r.records1 == Popped2().records1 && r.records2 == Popped2().records2;
  }

  lemma FixedThirdDeparture()
    ensures IntTransition(Popped2()) == Ok(Popped3())
  {
    var r := IntTransition(Popped2()).value;
    assert r.records1 == Popped3().records1 && r.records2 == Popped3().records2;
  }

  /** The schedule at each corrected departure, and the empty canal after
      the last one. */
  lemma FixedSchedules()
    ensures Fixed4().remainingTime == Fin(3585.0) && Output(Fixed4()) == Ok((One, Tanker0()))
    ensures Popped1().remainingTime == Fin(5.0) && Output(Popped1()) == Ok((Two, Tanker2()))
    ensures Popped2().remainingTime == Fin(5.0) && Output(Popped2()) == Ok((One, Carrier1()))
    ensures Popped3().remainingTime == Fin(5.0) && Output(Popped3()) == Ok((Two, Carrier3()))
    ensures IntTransition(Popped3()).Ok? && IntTransition(Popped3()).value.remainingTime == Inf
  {
  }

  /** With the correction, the experiment's expectation holds: the four
      vessels leave at t = 3600, 3605, 3610 and 3615 (15 + 3585, then 5 s
      apart), each after exactly 3600 s, and each on its own side. */
  lemma CorrectedExperiment()
    ensures ExtTransition(ExperimentCanal(), Initial(), 0.0, In(Tanker0()), None) == Ok(First())
    ensures ExtTransition(ExperimentCanal(), First(), 5.0, None, In(Tanker2())) == Ok(Fixed2())
    ensures ExtTransition(ExperimentCanal(), Fixed2(), 5.0, In(Carrier1()), None) == Ok(Fixed3())
    ensures ExtTransition(ExperimentCanal(), Fixed3(), 5.0, None, In(Carrier3())) == Ok(Fixed4())
    ensures Fixed4().remainingTime == Fin(3585.0) && Output(Fixed4()) == Ok((One, Tanker0()))
    ensures IntTransition(Fixed4()) == Ok(Popped1())
    ensures Popped1().remainingTime == Fin(5.0) && Output(Popped1()) == Ok((Two, Tanker2()))
    ensures IntTransition(Popped1()) == Ok(Popped2())
    ensures Popped2().remainingTime == Fin(5.0) && Output(Popped2()) == Ok((One, Carrier1()))
    ensures IntTransition(Popped2()) == Ok(Popped3())
    ensures Popped3().remainingTime == Fin(5.0) && Output(Popped3()) == Ok((Two, Carrier3()))
    ensures IntTransition(Popped3()).Ok? && IntTransition(Popped3()).value.remainingTime == Inf
  {
    TankerEntersDirectionOne();
    FixedSecondArrival();
    FixedThirdArrival();
    FixedFourthArrival();
    FixedFirstDeparture();
    FixedSecondDeparture();
    FixedThirdDeparture();
    FixedSchedules();
  }

  // -----------------------------------------------------------------------
  // A one-component replay of the corrected canal, to state FIFO order per
  // direction over every schedule of arrivals.

  datatype Event = Arrive(elapsed: real, in1: Option<Vessel>, in2: Option<Vessel>) | Fire

  /** A vessel leaving on the out-port of `direction` at absolute `time`. */
  datatype Departure = Departure(time: real, direction: Direction, vessel: Vessel)

  function AsInput(v: Option<Vessel>): (m: Option<Message>)
    ensures Acceptable(m) && ArrivingOn(m) == (if v.Some? then [v.value] else [])
  {
    if v.Some? then Some(VesselMsg(v.value)) else None
  }

  /** The vessels an event brings into direction `d`. */
  function Arrived(ev: Event, d: Direction): seq<Vessel> {
    match ev
    case Fire => []
    case Arrive(_, in1, in2) =>
      var m := if d.One? then in1 else in2;
      if m.Some? then [m.value] else []
  }

  function ArrivalsOn(evs: seq<Event>, d: Direction): seq<Vessel> {
    if |evs| == 0 then [] else Arrived(evs[0], d) + ArrivalsOn(evs[1..], d)
  }

  /** The vessels that left on the side of direction `d`, in order. */
  function DepartedOn(ds: seq<Departure>, d: Direction): seq<Vessel> {
    if |ds| == 0 then []
    else (if ds[0].direction == d then [ds[0].vessel] else []) + DepartedOn(ds[1..], d)
  }

  lemma {:induction false} DepartedOnAppend(a: seq<Departure>, b: seq<Departure>, d: Direction)
    ensures DepartedOn(a + b, d) == DepartedOn(a, d) + DepartedOn(b, d)
  {
    if |a| == 0 {
      assert a + b == b;
    } else {
      var head := if a[0].direction == d then [a[0].vessel] else [];
      assert (a + b)[0] == a[0] && (a + b)[1..] == a[1..] + b;
      assert DepartedOn(a + b, d) == head + DepartedOn(a[1..] + b, d);
      assert DepartedOn(a, d) == head + DepartedOn(a[1..], d);
      DepartedOnAppend(a[1..], b, d);
      assert head + (DepartedOn(a[1..], d) + DepartedOn(b, d)) == (head + DepartedOn(a[1..], d)) + DepartedOn(b, d);
    }
  }

  /** What a step keeps for direction `d`: the vessels that left on its
      side, then those still queued, are those queued before plus those that
      arrived. */
  predicate Conserves(s: CanalState, s': CanalState, ds: seq<Departure>, ev: Event, d: Direction) {
    DepartedOn(ds, d) + VesselsOf(s'.Queue(d)) == VesselsOf(s.Queue(d)) + Arrived(ev, d)
  }

  lemma FireConserves(s: CanalState, s': CanalState, t: real, d: Direction)
    requires Valid(s) && !s.IsEmpty()
    requires IntTransition(s) == Ok(s')
    ensures Conserves(s, s', [Departure(t, Output(s).value.0, Output(s).value.1)], Fire, d)
  {
    var out := Output(s).value;
    var ds := [Departure(t, out.0, out.1)];
    assert ds[1..] == [];
    assert out.0 == s.queueForNextOutput.value;
    assert VesselsOf(s'.Queue(out.0)) == VesselsOf(s.Queue(out.0))[1..];
    assert VesselsOf(s'.Queue(out.0.Other())) == VesselsOf(s.Queue(out.0.Other()));
    if d == out.0 {
      assert VesselsOf(s.Queue(d)) == [out.1] + VesselsOf(s.Queue(d))[1..];
      assert DepartedOn(ds, d) == [out.1];
    } else {
      assert d == out.0.Other();
      assert DepartedOn(ds, d) == [];
    }
  }

  lemma ArriveConserves(s: CanalState, s': CanalState, ev: Event, d: Direction)
    requires ev.Arrive?
    requires VesselsOf(s'.records1) == VesselsOf(s.records1) + ArrivingOn(AsInput(ev.in1))
    requires VesselsOf(s'.records2) == VesselsOf(s.records2) + ArrivingOn(AsInput(ev.in2))
    ensures Conserves(s, s', [], ev, d)
  {
    var m := if d.One? then ev.in1 else ev.in2;
    var arrived := if m.Some? then [m.value] else [];
    assert Arrived(ev, d) == arrived;
    assert ArrivingOn(AsInput(m)) == arrived;
    assert DepartedOn([], d) == [];
    assert [] + VesselsOf(s'.Queue(d)) == VesselsOf(s'.Queue(d));
  }

  /** One kernel step at absolute time `now`: arrivals after `elapsed`, or
      the component firing when its time advance expires.  `None` when the
      kernel could not produce the step. */
  function Step(c: Config, s: CanalState, now: real, ev: Event): (r: Option<(CanalState, real, seq<Departure>)>)
    requires Scheduled(s)
    ensures r.Some? ==> Scheduled(r.value.0)
    ensures r.Some? ==> Conserves(s, r.value.0, r.value.2, ev, One) && Conserves(s, r.value.0, r.value.2, ev, Two)
  {
    match ev
    case Arrive(e, in1, in2) =>
      if 0.0 <= e && s.remainingTime.AtLeast(e) then
        var s' := ExtTransition(c, s, e, AsInput(in1), AsInput(in2)).value;
        ArriveConserves(s, s', ev, One);
        ArriveConserves(s, s', ev, Two);
        Some((s', now + e, []))
      else None
    case Fire =>
      if s.remainingTime.Fin? then
        var t := now + s.remainingTime.value;
        var out := Output(s).value;
        var s' := IntTransition(s).value;
        FireConserves(s, s', t, One);
        FireConserves(s, s', t, Two);
        Some((s', t, [Departure(t, out.0, out.1)]))
      else None
  }

  function Run(c: Config, s: CanalState, now: real, evs: seq<Event>): Option<(CanalState, seq<Departure>)>
    requires Scheduled(s)
    decreases |evs|
  {
    if |evs| == 0 then Some((s, []))
    else match Step(c, s, now, evs[0])
      case None => None
      case Some((s', t, ds)) =>
        match Run(c, s', t, evs[1..])
        case None => None
        case Some((fin, ds')) => Some((fin, ds + ds'))
  }

  /** FIFO per direction: over any legal schedule, what left on the side of
      direction `d`, followed by what is still queued in `d`, is exactly what
      was queued in `d` at the start followed by what arrived on its
      in-port, in order.  The other direction never interferes. */
  lemma {:induction false} RunIsFifoPerDirection(c: Config, s: CanalState, now: real, evs: seq<Event>, d: Direction)
    requires Scheduled(s)
    ensures Run(c, s, now, evs).Some? ==>
              DepartedOn(Run(c, s, now, evs).value.1, d) + VesselsOf(Run(c, s, now, evs).value.0.Queue(d))
              == VesselsOf(s.Queue(d)) + ArrivalsOn(evs, d)
    decreases |evs|
  {
    if |evs| > 0 && Run(c, s, now, evs).Some? {
      var step := Step(c, s, now, evs[0]).value;
      var rest := Run(c, step.0, step.1, evs[1..]).value;
      RunIsFifoPerDirection(c, step.0, step.1, evs[1..], d);
      assert Conserves(s, step.0, step.2, evs[0], d);
      DepartedOnAppend(step.2, rest.1, d);
      FifoCompose(VesselsOf(s.Queue(d)), DepartedOn(step.2, d), VesselsOf(step.0.Queue(d)), Arrived(evs[0], d),
                  DepartedOn(rest.1, d), VesselsOf(rest.0.Queue(d)), ArrivalsOn(evs[1..], d));
    }
  }

  // -----------------------------------------------------------------------
  // The same replay with the external transition as written.  Its schedule
  // may drift (see DriftScenario), but only validity is needed for the
  // vessels of each direction to leave in arrival order.

  /** One kernel step of the canal as written. */
  function StepAsWritten(c: Config, s: CanalState, now: real, ev: Event): (r: Option<(CanalState, real, seq<Departure>)>)
    requires Valid(s)
    ensures r.Some? ==> Valid(r.value.0)
    ensures r.Some? ==> Conserves(s, r.value.0, r.value.2, ev, One) && Conserves(s, r.value.0, r.value.2, ev, Two)
  {
    match ev
    case Arrive(e, in1, in2) =>
      if 0.0 <= e && s.remainingTime.AtLeast(e) then
        var s' := ExtTransitionAsWritten(c, s, e, AsInput(in1), AsInput(in2)).value;
        ArriveConserves(s, s', ev, One);
        ArriveConserves(s, s', ev, Two);
        Some((s', now + e, []))
      else None
    case Fire =>
      if s.remainingTime.Fin? then
        var t := now + s.remainingTime.value;
        var out := Output(s).value;
        var s' := IntTransition(s).value;
        FireConserves(s, s', t, One);
        FireConserves(s, s', t, Two);
        Some((s', t, [Departure(t, out.0, out.1)]))
      else None
  }

  function RunAsWritten(c: Config, s: CanalState, now: real, evs: seq<Event>): Option<(CanalState, seq<Departure>)>
    requires Valid(s)
    decreases |evs|
  {
    if |evs| == 0 then Some((s, []))
    else match StepAsWritten(c, s, now, evs[0])
      case None => None
      case Some((s', t, ds)) =>
        match RunAsWritten(c, s', t, evs[1..])
        case None => None
        case Some((fin, ds')) => Some((fin, ds + ds'))
  }

  /** FIFO per direction holds for the canal as written too: whatever the
      drifting schedule does, each direction's vessels leave on their side
      in the order they were queued or arrived. */
  lemma {:induction false} RunAsWrittenIsFifoPerDirection(c: Config, s: CanalState, now: real, evs: seq<Event>, d: Direction)
    requires Valid(s)
    ensures RunAsWritten(c, s, now, evs).Some? ==>
              DepartedOn(RunAsWritten(c, s, now, evs).value.1, d) + VesselsOf(RunAsWritten(c, s, now, evs).value.0.Queue(d))
              == VesselsOf(s.Queue(d)) + ArrivalsOn(evs, d)
    decreases |evs|
  {
    if |evs| > 0 && RunAsWritten(c, s, now, evs).Some? {
      var step := StepAsWritten(c, s, now, evs[0]).value;
      var rest := RunAsWritten(c, step.0, step.1, evs[1..]).value;
      RunAsWrittenIsFifoPerDirection(c, step.0, step.1, evs[1..], d);
      assert Conserves(s, step.0, step.2, evs[0], d);
      DepartedOnAppend(step.2, rest.1, d);
      FifoCompose(VesselsOf(s.Queue(d)), DepartedOn(step.2, d), VesselsOf(step.0.Queue(d)), Arrived(evs[0], d),
                  DepartedOn(rest.1, d), VesselsOf(rest.0.Queue(d)), ArrivalsOn(evs[1..], d));
    }
  }
}
