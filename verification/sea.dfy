/** models/sea.py: the collector at the end of the port.  It keeps its own
    clock by adding up elapsed times and stamps each vessel with the time it
    spent in the system. */
module Sea {
  import opened Wrappers
  import opened Vessels
  import opened Messages

  datatype SeaState = SeaState(vessels: seq<Vessel>, currentTime: real)

  function Initial(): (s: SeaState)
    ensures s.vessels == [] && s.currentTime == 0.0
  {
    SeaState([], 0.0)
  }

  /** `extTransition`: the clock advances by `e`, and the vessel is stamped
      and kept.  A missing input or one that is not a vessel fails the
      source's assertions.  The sea never schedules an internal event. */
  function ExtTransition(s: SeaState, e: real, inVessel: Option<Message>): (r: Result<SeaState>)
    requires 0.0 <= e
    ensures r.Ok? <==> inVessel.Some? && inVessel.value.VesselMsg?
    ensures r.Ok? ==> r.value.currentTime == s.currentTime + e
    ensures r.Ok? ==>
              var v := inVessel.value.vessel;
              r.value.vessels == s.vessels + [v.(timeInSystem := Some(r.value.currentTime - v.creationTime))]
  {
    if inVessel.None? then Err("extTransition: no input on in_vessel")
    else if !inVessel.value.VesselMsg? then Err("extTransition: input is not a Vessel")
    else
      var now := s.currentTime + e;
      var v := inVessel.value.vessel;
      Ok(SeaState(s.vessels + [v.(timeInSystem := Some(now - v.creationTime))], now))
  }

  /** A vessel reaching the sea at absolute time `time`. */
  datatype Arrival = Arrival(time: real, vessel: Vessel)

  /** The first arrival is not before `start` and arrival times never
      decrease. */
  predicate InOrder(start: real, arrivals: seq<Arrival>) {
    && (|arrivals| > 0 ==> start <= arrivals[0].time)
    && forall i :: 0 < i < |arrivals| ==> arrivals[i - 1].time <= arrivals[i].time
  }

  /** Replays the arrivals, each after the time elapsed since the previous
      event. */
  function Collect(s: SeaState, arrivals: seq<Arrival>): Result<SeaState>
    requires InOrder(s.currentTime, arrivals)
    decreases |arrivals|
  {
    if |arrivals| == 0 then Ok(s)
    else
      match ExtTransition(s, arrivals[0].time - s.currentTime, Some(VesselMsg(arrivals[0].vessel)))
      case Err(m) => Err(m)
      case Ok(s') => Collect(s', arrivals[1..])
  }

  /** What the sea should hold: the vessel, stamped with its arrival time
      minus its creation time. */
  function Stamped(a: Arrival): Vessel {
    a.vessel.(timeInSystem := Some(a.time - a.vessel.creationTime))
  }

  /** The sea's clock follows absolute time, so every vessel is stamped with
      exactly the time between its creation and its arrival, and the vessels
      are kept in arrival order after the ones already collected. */
  lemma {:induction false} CollectStampsTimeInSystem(s: SeaState, arrivals: seq<Arrival>)
    requires InOrder(s.currentTime, arrivals)
    ensures Collect(s, arrivals).Ok?
    ensures |arrivals| > 0 ==> Collect(s, arrivals).value.currentTime == arrivals[|arrivals| - 1].time
    ensures Collect(s, arrivals).value.vessels == s.vessels + seq(|arrivals|, i requires 0 <= i < |arrivals| => Stamped(arrivals[i]))
    decreases |arrivals|
  {
    var stamped := seq(|arrivals|, i requires 0 <= i < |arrivals| => Stamped(arrivals[i]));
    if |arrivals| > 0 {
      var s' := ExtTransition(s, arrivals[0].time - s.currentTime, Some(VesselMsg(arrivals[0].vessel))).value;
      assert s'.currentTime == arrivals[0].time;
      assert s'.vessels == s.vessels + [Stamped(arrivals[0])];
      var rest := arrivals[1..];
      assert InOrder(s'.currentTime, rest) by {
        if |rest| > 0 { assert rest[0] == arrivals[1]; }
        forall i | 0 < i < |rest| ensures rest[i - 1].time <= rest[i].time {
          assert rest[i - 1] == arrivals[i] && rest[i] == arrivals[i + 1];
        }
      }
      CollectStampsTimeInSystem(s', rest);
      var restStamped := seq(|rest|, i requires 0 <= i < |rest| => Stamped(rest[i]));
      assert stamped == [Stamped(arrivals[0])] + restStamped;
    }
  }
}
