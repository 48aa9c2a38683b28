/** models/dock.py: vessels moor for a random holding time and then leave,
    the one whose timer runs out first going first.  Leaving vessels are
    routed to the sea and a departure request naming the dock is sent. */
module Dock {
  import opened Wrappers
  import opened Devs
  import opened Units
  import opened Vessels
  import opened Messages
  import opened Timers

  /** The destination that routes a vessel to the sea. */
  const SeaDock: string := "9"

  /** The lower bound on a holding time: six hours. */
  const MinHoldingTime: real := 6.0 * SecondsPerHour

  /** The dock's name, which is also the dock key of the control tower. */
  datatype Config = Config(name: string)

  datatype DockState = DockState(
    remainingTime: Time,
    vessels: seq<Vessel>,
    timers: seq<real>,
    indexForNextVessel: Option<nat>)

  /** The schedule of a dock whose time advance is finite: the stored
      index is the first position of a smallest timer, and the time advance
      is that timer. */
  predicate SelectsFirstMin(s: DockState) {
    && s.indexForNextVessel.Some?
    && IsFirstMin(s.timers, s.indexForNextVessel.value)
    && s.remainingTime == Fin(s.timers[s.indexForNextVessel.value])
  }

  /** What every reachable state satisfies.  A passive dock is either empty
      (with a stale index) or freshly preloaded, with nothing selected. */
  predicate Valid(s: DockState) {
    && |s.vessels| == |s.timers|
    && (s.remainingTime.Fin? ==> |s.vessels| > 0 && SelectsFirstMin(s))
    && (s.remainingTime.Inf? && |s.vessels| > 0 ==> s.indexForNextVessel.None?)
  }

  /** The source samples a normal distribution (mean 36 h, deviation 12 h)
      and clamps it from below at six hours; the sample is a parameter. */
  function HoldingTime(sample: real): (t: real)
    ensures t >= MinHoldingTime && t >= sample
    ensures t >= 21600.0
    ensures t == sample || t == MinHoldingTime
  {
    if sample >= MinHoldingTime then sample else MinHoldingTime
  }

  /** The constructor: the given vessels are moored with their holding
      times, but no departure is scheduled, so they wait until the first
      arrival makes the dock select a timer. */
  function Initial(vessels: seq<Vessel>, samples: seq<real>): (s: DockState)
    requires |samples| == |vessels|
    ensures Valid(s) && s.remainingTime == Inf && s.indexForNextVessel.None?
    ensures s.vessels == vessels && |s.timers| == |samples|
    ensures forall i :: 0 <= i < |samples| ==> s.timers[i] == HoldingTime(samples[i])
  {
    DockState(Inf, vessels, seq(|samples|, i requires 0 <= i < |samples| => HoldingTime(samples[i])), None)
  }

  /** `generate_at_smallest_timer`: schedule the first smallest timer; an
      empty dock fails the source's assertion. */
  function GenerateAtSmallestTimer(s: DockState): (r: Result<DockState>)
    requires |s.vessels| == |s.timers|
    ensures r.Ok? <==> |s.vessels| > 0
    ensures r.Ok? ==> Valid(r.value) && SelectsFirstMin(r.value)
    ensures r.Ok? ==> r.value.vessels == s.vessels && r.value.timers == s.timers
  {
    if |s.vessels| == 0 then Err("generate_at_smallest_timer: empty dock")
    else
      var k := FirstArgMin(s.timers);
      Ok(s.(remainingTime := Fin(s.timers[k]), indexForNextVessel := Some(k)))
  }

  /** `extTransition`: every timer is lowered by the elapsed time, the
      arriving vessel is moored with its clamped holding time, and the
      smallest timer is scheduled.  Anything but a vessel fails the source's
      assertions. */
  function ExtTransition(s: DockState, e: real, inVessel: Option<Message>, sample: real): (r: Result<DockState>)
    requires Valid(s) && 0.0 <= e && s.remainingTime.AtLeast(e)
    ensures r.Ok? <==> inVessel.Some? && inVessel.value.VesselMsg?
    ensures r.Ok? ==> Valid(r.value) && SelectsFirstMin(r.value)
    ensures r.Ok? ==> r.value.vessels == s.vessels + [inVessel.value.vessel]
    ensures r.Ok? ==> |r.value.timers| == |s.timers| + 1
    // the vessels already moored keep their absolute departure time
    ensures r.Ok? ==> forall i :: 0 <= i < |s.timers| ==> r.value.timers[i] + e == s.timers[i]
    ensures r.Ok? ==> r.value.timers[|s.timers|] == HoldingTime(sample)
  {
    if inVessel.Some? && inVessel.value.VesselMsg? then
      GenerateAtSmallestTimer(s.(vessels := s.vessels + [inVessel.value.vessel],
                                 timers := Lower(s.timers, e) + [HoldingTime(sample)]))
    else Err("extTransition: input is not a vessel")
  }

  /** What the dock sends when a timer runs out. */
  datatype DockOutput = DockOutput(vessel: Vessel, departure: PortDepartureRequest)

  /** `outputFnc`: the selected vessel, routed to the sea, and a departure
      request naming this dock; no selection fails the source's assertion.
      The stamping of the moored copy is immaterial, since the internal
      transition removes it. */
  function Output(cfg: Config, s: DockState): (r: Result<DockOutput>)
    ensures r.Ok? <==> s.indexForNextVessel.Some? && s.indexForNextVessel.value < |s.vessels|
    ensures r.Ok? ==>
              && r.value.vessel == s.vessels[s.indexForNextVessel.value].(destinationDock := Some(SeaDock))
              && r.value.departure == PortDepartureRequest(cfg.name)
  {
    match s.indexForNextVessel
    case None => Err("outputFnc: no vessel selected")
    case Some(k) =>
      if k < |s.vessels| then Ok(DockOutput(s.vessels[k].(destinationDock := Some(SeaDock)), PortDepartureRequest(cfg.name)))
      else Err("outputFnc: index out of range")
  }

  /** `intTransition`: the selected vessel and its timer leave; the others
      keep their order, are lowered by the time that passed, and the
      smallest is selected again, or the dock becomes passive. */
  function IntTransition(s: DockState): (r: Result<DockState>)
    requires Valid(s)
    ensures r.Ok? <==> s.remainingTime.Fin?
    ensures r.Ok? ==> Valid(r.value)
    ensures r.Ok? ==> r.value.vessels == RemoveAt(s.vessels, s.indexForNextVessel.value)
    ensures r.Ok? ==> |r.value.timers| == |s.timers| - 1
    ensures r.Ok? ==> forall i :: 0 <= i < |r.value.timers| ==>
              r.value.timers[i] + s.remainingTime.value == RemoveAt(s.timers, s.indexForNextVessel.value)[i]
    ensures r.Ok? && |r.value.vessels| > 0 ==> SelectsFirstMin(r.value)
    ensures r.Ok? && |r.value.vessels| == 0 ==> r.value.remainingTime == Inf
  {
    match s.indexForNextVessel
    case None => Err("intTransition: no vessel selected")
    case Some(k) =>
      if k >= |s.vessels| then Err("intTransition: pop index out of range")
      else if s.remainingTime.Inf? then Err("intTransition: no vessel selected")
      else
        var vessels := RemoveAt(s.vessels, k);
        var popped := RemoveAt(s.timers, k);
        if |vessels| == 0 then Ok(s.(remainingTime := Inf, vessels := vessels, timers := popped))
        else GenerateAtSmallestTimer(s.(vessels := vessels, timers := Lower(popped, s.remainingTime.value)))
  }

  /** Preloaded vessels wait: without an arrival the dock stays passive, and
      the first arrival schedules the earliest of all holding times, the
      preloaded ones lowered by the time spent waiting. */
  lemma {:induction false} PreloadWaitsForFirstArrival(vessels: seq<Vessel>, samples: seq<real>, e: real, v: Vessel, sample: real)
    requires |samples| == |vessels| && 0.0 <= e
    ensures Initial(vessels, samples).remainingTime == Inf
    ensures IntTransition(Initial(vessels, samples)).Err?
    ensures
      var r := ExtTransition(Initial(vessels, samples), e, Some(VesselMsg(v)), sample);
      r.Ok? && r.value.remainingTime.Fin? &&
      (forall i :: 0 <= i < |samples| ==> r.value.remainingTime.value <= HoldingTime(samples[i]) - e) &&
      r.value.remainingTime.value <= HoldingTime(sample)
  {
    var s := Initial(vessels, samples);
    var r := ExtTransition(s, e, Some(VesselMsg(v)), sample).value;
    var k := r.indexForNextVessel.value;
    forall i | 0 <= i < |samples| ensures r.remainingTime.value <= HoldingTime(samples[i]) - e {
      assert r.timers[i] + e == s.timers[i];
    }
    assert r.timers[|s.timers|] == HoldingTime(sample);
  }
}
