/** models/lock.py: a lock that cycles gate-closing, washing, gate-opening
    and gate-open, flipping its water level once per cycle.  Vessels wait on
    the side of their level; when the gate closes, the waiting vessels of the
    current level are admitted greedily up to the chamber's surface area, and
    while the gate is open they leave one by one on the other level's side. */
module Lock {
  import opened Wrappers
  import opened Vessels
  import opened Messages

  datatype IntervalState = GateClosing | Washing | GateOpening | GateIsOpen {
    /** The phase that follows in a full cycle. */
    function Next(): IntervalState {
      match this
      case GateClosing => Washing
      case Washing => GateOpening
      case GateOpening => GateIsOpen
      case GateIsOpen => GateClosing
    }
  }

  datatype WaterLevel = Low | High {
    /** `swap_water_levels` */
    function Swapped(): (w: WaterLevel)
      ensures w != this
    {
      if High? then Low else High
    }
  }

  /** Constructor parameters of `Lock(...)`; durations in seconds, areas in
      square metres. */
  datatype Config = Config(
    washingDuration: int,
    lockShiftInterval: int,
    gateDuration: int,
    surfaceArea: int,
    timeBetweenDepartures: int)

  /** A sensible configuration: no negative durations, a cycle long enough
      to hold both gate movements and the washing, no negative area. */
  predicate ConfigOk(cfg: Config) {
    && cfg.washingDuration >= 0 && cfg.gateDuration >= 0 && cfg.timeBetweenDepartures >= 0
    && cfg.lockShiftInterval >= 2 * cfg.gateDuration + cfg.washingDuration
    && cfg.surfaceArea >= 0
  }

  /** `LockState`.  The lock never passivates, so its time advance is a plain
      real. */
  datatype LockState = LockState(
    currentSurfaceArea: int,
    currentWaterLevel: WaterLevel,
    intervalState: IntervalState,
    remainingTime: real,
    vesselsInLock: seq<Vessel>,
    vesselsWaitingLow: seq<Vessel>,
    vesselsWaitingHigh: seq<Vessel>,
    sumRemainingSurfaceArea: int,
    numberOfWashings: int,
    numberLockStateChangesWithNoVessels: int,
    idleTime: int)
  {
    function Waiting(w: WaterLevel): seq<Vessel> {
      if w.High? then vesselsWaitingHigh else vesselsWaitingLow
    }

    function WithWaiting(w: WaterLevel, q: seq<Vessel>): (r: LockState)
      ensures r.Waiting(w) == q && r.Waiting(w.Swapped()) == Waiting(w.Swapped())
      ensures r.vesselsInLock == vesselsInLock && r.currentWaterLevel == currentWaterLevel
      ensures r.intervalState == intervalState && r.remainingTime == remainingTime
    {
      if w.High? then this.(vesselsWaitingHigh := q) else this.(vesselsWaitingLow := q)
    }
  }

  /** The state the constructor builds: gate open at the high level, and an
      immediate first transition. */
  function Initial(cfg: Config): (s: LockState)
    ensures s.intervalState == GateIsOpen && s.currentWaterLevel == High && s.remainingTime == 0.0
    ensures s.vesselsInLock == [] && s.vesselsWaitingLow == [] && s.vesselsWaitingHigh == []
    ensures ConfigOk(cfg) ==> Valid(cfg, s)
  {
    LockState(cfg.surfaceArea, High, GateIsOpen, 0.0, [], [], [], 0, 0, 0, 0)
  }

  function AreaOf(vs: seq<Vessel>): int {
    if |vs| == 0 then 0 else vs[0].SurfaceArea() + AreaOf(vs[1..])
  }

  /** The chamber's occupied area only shrinks when its head leaves. */
  lemma AreaOfTail(vs: seq<Vessel>)
    ensures |vs| > 0 ==> AreaOf(vs[1..]) < AreaOf(vs)
  {
    if |vs| > 0 {
      ClassConstantsAreSane(vs[0].vesselClass);
    }
  }

  /** What every reachable state satisfies: the working area is always back
      at the full chamber (so the surface-area statistic never grows), the
      chamber is empty whenever the gate starts to close, the vessels inside
      fit, and the time advance is not negative. */
  predicate Valid(cfg: Config, s: LockState) {
    && s.currentSurfaceArea == cfg.surfaceArea
    && s.sumRemainingSurfaceArea == 0
    && (s.intervalState.GateClosing? ==> |s.vesselsInLock| == 0)
    && AreaOf(s.vesselsInLock) <= cfg.surfaceArea
    && s.remainingTime >= 0.0
  }

  /** `xs` split into the two subsequences `a` and `b`, each in order. */
  predicate Interleaves<T(==)>(xs: seq<T>, a: seq<T>, b: seq<T>)
    decreases |xs|
  {
    if |xs| == 0 then a == [] && b == []
    else
      || (|a| > 0 && a[0] == xs[0] && Interleaves(xs[1..], a[1..], b))
      || (|b| > 0 && b[0] == xs[0] && Interleaves(xs[1..], a, b[1..]))
  }

  /** What `Admit(budget, waiting)` promises about its result `r`. */
  predicate AdmitsFrom(budget: int, waiting: seq<Vessel>, r: (seq<Vessel>, seq<Vessel>, int)) {
    && Interleaves(waiting, r.0, r.1)
    && multiset(r.0) + multiset(r.1) == multiset(waiting)
    && AreaOf(r.0) + r.2 == budget
    && r.2 <= budget && (budget >= 0 ==> r.2 >= 0)
    && (forall i :: 0 <= i < |r.1| ==> r.1[i].SurfaceArea() > r.2)
  }

  /** The first vessel fits and goes in ahead of what the rest admits. */
  lemma TakeFirst(budget: int, v: Vessel, tail: seq<Vessel>, rest: (seq<Vessel>, seq<Vessel>, int))
    requires budget - v.SurfaceArea() >= 0
    requires AdmitsFrom(budget - v.SurfaceArea(), tail, rest)
    ensures AdmitsFrom(budget, [v] + tail, ([v] + rest.0, rest.1, rest.2))
  {
    ClassConstantsAreSane(v.vesselClass);
    assert ([v] + tail)[1..] == tail && ([v] + rest.0)[1..] == rest.0;
  }

  /** The first vessel does not fit and waits ahead of what the rest leaves. */
  lemma LeaveFirst(budget: int, v: Vessel, tail: seq<Vessel>, rest: (seq<Vessel>, seq<Vessel>, int))
    requires budget - v.SurfaceArea() < 0
    requires AdmitsFrom(budget, tail, rest)
    ensures AdmitsFrom(budget, [v] + tail, (rest.0, [v] + rest.1, rest.2))
  {
    ClassConstantsAreSane(v.vesselClass);
    assert ([v] + tail)[1..] == tail && ([v] + rest.1)[1..] == rest.1;
  }

  /** The admission loop of `transfer_vessels_waiting_to_lock`, driven by
      `can_fit_capacity`: scanning the waiting list in order, a vessel goes in
      when the area still free minus its own is not negative.  Returns the
      admitted vessels, those left waiting, and the area still free. */
  function Admit(budget: int, waiting: seq<Vessel>): (r: (seq<Vessel>, seq<Vessel>, int))
    ensures Interleaves(waiting, r.0, r.1)
    ensures multiset(r.0) + multiset(r.1) == multiset(waiting)
    ensures AreaOf(r.0) + r.2 == budget
    ensures r.2 <= budget && (budget >= 0 ==> r.2 >= 0)
    // greedy: a vessel left waiting does not fit even in what is finally free
    ensures forall i :: 0 <= i < |r.1| ==> r.1[i].SurfaceArea() > r.2
    decreases |waiting|
  {
    if |waiting| == 0 then ([], [], budget)
    else
      var v := waiting[0];
      assert waiting == [v] + waiting[1..];
      if budget - v.SurfaceArea() >= 0 then
        var rest := Admit(budget - v.SurfaceArea(), waiting[1..]);
        TakeFirst(budget, v, waiting[1..], rest);
        ([v] + rest.0, rest.1, rest.2)
      else
        var rest := Admit(budget, waiting[1..]);
        LeaveFirst(budget, v, waiting[1..], rest);
        (rest.0, [v] + rest.1, rest.2)
  }

  /** One turn of the admission loop: vessel `v` is taken when its area
      fits into what is still free, and otherwise keeps waiting. */
  function AdmitNext(a: (seq<Vessel>, seq<Vessel>, int), v: Vessel): (seq<Vessel>, seq<Vessel>, int) {
    if v.SurfaceArea() <= a.2 then (a.0 + [v], a.1, a.2 - v.SurfaceArea()) else (a.0, a.1 + [v], a.2)
  }

  /** `Admit` on a list with a known first vessel. */
  lemma AdmitCons(budget: int, v: Vessel, rest: seq<Vessel>)
    ensures Admit(budget, [v] + rest)
         == if budget - v.SurfaceArea() >= 0
            then var a := Admit(budget - v.SurfaceArea(), rest); ([v] + a.0, a.1, a.2)
            else var a := Admit(budget, rest); (a.0, [v] + a.1, a.2)
  {
    assert ([v] + rest)[1..] == rest;
  }

  /** A vessel taken in front does not change the next turn's decision. */
  lemma NextAfterFront(x: Vessel, a: (seq<Vessel>, seq<Vessel>, int), v: Vessel)
    ensures AdmitNext(([x] + a.0, a.1, a.2), v)
         == ([x] + AdmitNext(a, v).0, AdmitNext(a, v).1, AdmitNext(a, v).2)
    ensures AdmitNext((a.0, [x] + a.1, a.2), v)
         == (AdmitNext(a, v).0, [x] + AdmitNext(a, v).1, AdmitNext(a, v).2)
  {
    assert [x] + (a.0 + [v]) == ([x] + a.0) + [v];
    assert [x] + (a.1 + [v]) == ([x] + a.1) + [v];
  }

  lemma AdmitFits(budget: int, v: Vessel, rest: seq<Vessel>, admitted: seq<Vessel>, left: seq<Vessel>, free: int)
    requires budget - v.SurfaceArea() >= 0
    requires Admit(budget - v.SurfaceArea(), rest) == (admitted, left, free)
    ensures Admit(budget, [v] + rest) == ([v] + admitted, left, free)
  {
    AdmitCons(budget, v, rest);
  }

  lemma AdmitSkips(budget: int, v: Vessel, rest: seq<Vessel>, admitted: seq<Vessel>, left: seq<Vessel>, free: int)
    requires budget - v.SurfaceArea() < 0
    requires Admit(budget, rest) == (admitted, left, free)
    ensures Admit(budget, [v] + rest) == (admitted, [v] + left, free)
  {
    AdmitCons(budget, v, rest);
  }

  lemma AdmitSnocFits(budget: int, x: Vessel, rest: seq<Vessel>, v: Vessel)
    requires budget - x.SurfaceArea() >= 0
    requires Admit(budget - x.SurfaceArea(), rest + [v]) == AdmitNext(Admit(budget - x.SurfaceArea(), rest), v)
    ensures Admit(budget, [x] + (rest + [v])) == AdmitNext(Admit(budget, [x] + rest), v)
  {
    var a := Admit(budget - x.SurfaceArea(), rest);
    var n := AdmitNext(a, v);
    AdmitFits(budget, x, rest, a.0, a.1, a.2);
    AdmitFits(budget, x, rest + [v], n.0, n.1, n.2);
    NextAfterFront(x, a, v);
  }

  lemma AdmitSnocSkips(budget: int, x: Vessel, rest: seq<Vessel>, v: Vessel)
    requires budget - x.SurfaceArea() < 0
    requires Admit(budget, rest + [v]) == AdmitNext(Admit(budget, rest), v)
    ensures Admit(budget, [x] + (rest + [v])) == AdmitNext(Admit(budget, [x] + rest), v)
  {
    var a := Admit(budget, rest);
    var n := AdmitNext(a, v);
    AdmitSkips(budget, x, rest, a.0, a.1, a.2);
    AdmitSkips(budget, x, rest + [v], n.0, n.1, n.2);
    NextAfterFront(x, a, v);
  }

  lemma AdmitSingle(budget: int, v: Vessel)
    ensures Admit(budget, [v]) == AdmitNext(([], [], budget), v)
  {
    var none: seq<Vessel> := [];
    assert [v] == [v] + none && none + [v] == [v];
    if budget - v.SurfaceArea() >= 0 {
      assert Admit(budget - v.SurfaceArea(), none) == (none, none, budget - v.SurfaceArea());
      AdmitFits(budget, v, none, none, none, budget - v.SurfaceArea());
    } else {
      assert Admit(budget, none) == (none, none, budget);
      AdmitSkips(budget, v, none, none, none, budget);
    }
  }

  /** Appending a vessel to the waiting list adds one more turn of the loop. */
  lemma {:induction false} AdmitSnoc(budget: int, xs: seq<Vessel>, v: Vessel)
    ensures Admit(budget, xs + [v]) == AdmitNext(Admit(budget, xs), v)
    decreases |xs|
  {
    if |xs| == 0 {
      assert xs + [v] == [v];
      AdmitSingle(budget, v);
    } else {
      var x, tail := xs[0], xs[1..];
      assert xs == [x] + tail && xs + [v] == [x] + (tail + [v]);
      if budget - x.SurfaceArea() >= 0 {
        AdmitSnoc(budget - x.SurfaceArea(), tail, v);
        AdmitSnocFits(budget, x, tail, v);
      } else {
        AdmitSnoc(budget, tail, v);
        AdmitSnocSkips(budget, x, tail, v);
      }
    }
  }

  /** First-fit admission, as the source's loop runs it: after the first `k`
      waiting vessels have been handled, vessel `k` is admitted exactly when
      its area fits into what is still free at its turn, and is left waiting
      otherwise.  With `Admit(budget, []) == ([], [], budget)` this fixes
      the split of every waiting list. */
  lemma AdmitIsFirstFit(budget: int, waiting: seq<Vessel>, k: nat)
    requires k < |waiting|
    ensures var a := Admit(budget, waiting[..k]);
            var v := waiting[k];
            && (v.SurfaceArea() <= a.2 ==>
                  Admit(budget, waiting[..k + 1]) == (a.0 + [v], a.1, a.2 - v.SurfaceArea()))
            && (v.SurfaceArea() > a.2 ==>
                  Admit(budget, waiting[..k + 1]) == (a.0, a.1 + [v], a.2))
  {
    assert waiting[..k + 1] == waiting[..k] + [waiting[k]];
    AdmitSnoc(budget, waiting[..k], waiting[k]);
  }

  /** `transfer_vessels_waiting_to_lock` on the waiting list of the current
      level: the chamber must be empty; it receives the admitted vessels, the
      others stay waiting in their order, and the working area is reset to
      the full chamber. */
  function Transfer(cfg: Config, s: LockState): (r: Result<LockState>)
    ensures r.Ok? <==> |s.vesselsInLock| == 0
    ensures r.Ok? ==>
              var w := s.currentWaterLevel;
              && Interleaves(s.Waiting(w), r.value.vesselsInLock, r.value.Waiting(w))
              // first fit, as characterised by AdmitIsFirstFit
              && r.value.vesselsInLock == Admit(s.currentSurfaceArea, s.Waiting(w)).0
              && r.value.Waiting(w) == Admit(s.currentSurfaceArea, s.Waiting(w)).1
              && (s.currentSurfaceArea >= 0 ==> AreaOf(r.value.vesselsInLock) <= s.currentSurfaceArea)
              && (forall i :: 0 <= i < |r.value.Waiting(w)| ==>
                    AreaOf(r.value.vesselsInLock) + r.value.Waiting(w)[i].SurfaceArea() > s.currentSurfaceArea)
              && r.value.Waiting(w.Swapped()) == s.Waiting(w.Swapped())
              && r.value.currentSurfaceArea == cfg.surfaceArea
    ensures r.Ok? ==> r.value.currentWaterLevel == s.currentWaterLevel && r.value.intervalState == s.intervalState
    ensures r.Ok? ==> r.value.remainingTime == s.remainingTime
    ensures r.Ok? ==> r.value.sumRemainingSurfaceArea == s.sumRemainingSurfaceArea
  {
    if |s.vesselsInLock| != 0 then Err("transfer_vessels_waiting_to_lock: lock is not empty")
    else
      var w := s.currentWaterLevel;
      var admitted := Admit(s.currentSurfaceArea, s.Waiting(w));
      Ok(s.WithWaiting(w, admitted.1).(vesselsInLock := admitted.0, currentSurfaceArea := cfg.surfaceArea))
  }

  /** `normal_transition_time`: the nominal duration of a phase. */
  function NormalTransitionTime(cfg: Config, p: IntervalState): (t: int)
    ensures p.GateClosing? || p.GateOpening? ==> t == cfg.gateDuration
    ensures p.Washing? ==> t == cfg.washingDuration
    // the four nominal durations fill exactly one lock shift
    ensures p.GateIsOpen? ==> t + 2 * cfg.gateDuration + cfg.washingDuration == cfg.lockShiftInterval
  {
    match p
    case GateClosing => cfg.gateDuration
    case Washing => cfg.washingDuration
    case GateOpening => cfg.gateDuration
    case GateIsOpen => cfg.lockShiftInterval - (2 * cfg.gateDuration + cfg.washingDuration)
  }

  /** `extTransition`: the time advance is lowered by the elapsed time and
      an arrival joins the waiting list of its side; when both sides receive
      a vessel, only the high one is taken.  No input, or a non-vessel,
      fails the source's assertions.  The chamber and the phase are never
      touched. */
  function ExtTransition(cfg: Config, s: LockState, e: real, inLow: Option<Message>, inHigh: Option<Message>): (r: Result<LockState>)
    requires 0.0 <= e <= s.remainingTime
    ensures r.Ok? <==> if inHigh.Some? then inHigh.value.VesselMsg? else inLow.Some? && inLow.value.VesselMsg?
    ensures r.Ok? ==> r.value.remainingTime + e == s.remainingTime
    ensures r.Ok? && inHigh.Some? ==>
              r.value.vesselsWaitingHigh == s.vesselsWaitingHigh + [inHigh.value.vessel]
              && r.value.vesselsWaitingLow == s.vesselsWaitingLow
    ensures r.Ok? && inHigh.None? ==>
              r.value.vesselsWaitingLow == s.vesselsWaitingLow + [inLow.value.vessel]
              && r.value.vesselsWaitingHigh == s.vesselsWaitingHigh
    ensures r.Ok? ==> r.value.vesselsInLock == s.vesselsInLock && r.value.intervalState == s.intervalState
    ensures r.Ok? ==> r.value.currentWaterLevel == s.currentWaterLevel
    ensures r.Ok? && ConfigOk(cfg) && Valid(cfg, s) ==> Valid(cfg, r.value)
  {
    var lowered := s.(remainingTime := s.remainingTime - e);
    if inHigh.Some? then
      if inHigh.value.VesselMsg? then Ok(lowered.(vesselsWaitingHigh := s.vesselsWaitingHigh + [inHigh.value.vessel]))
      else Err("extTransition: input is not a vessel")
    else if inLow.Some? then
      if inLow.value.VesselMsg? then Ok(lowered.(vesselsWaitingLow := s.vesselsWaitingLow + [inLow.value.vessel]))
      else Err("extTransition: input is not a vessel")
    else Err("extTransition: no input")
  }

  /** `handle_gate_is_open`: the vessel just sent leaves the chamber; while
      vessels remain the gate stays open and the next one leaves after
      `time_between_departures`, otherwise the gate starts to close. */
  function HandleGateIsOpen(cfg: Config, s: LockState): (r: LockState)
    ensures |s.vesselsInLock| == 0 ==> r == s.(intervalState := GateClosing)
    ensures |s.vesselsInLock| > 0 ==> r.vesselsInLock == s.vesselsInLock[1..]
    ensures |s.vesselsInLock| > 1 ==>
              r.intervalState == GateIsOpen && r.remainingTime == cfg.timeBetweenDepartures as real
    ensures |s.vesselsInLock| <= 1 ==> r.intervalState == GateClosing && r.remainingTime == s.remainingTime
    ensures r.Waiting(Low) == s.Waiting(Low) && r.Waiting(High) == s.Waiting(High)
    ensures r.currentWaterLevel == s.currentWaterLevel
  {
    if |s.vesselsInLock| == 0 then s.(intervalState := GateClosing)
    else
      var rest := s.vesselsInLock[1..];
      if |rest| == 0 then s.(vesselsInLock := rest, intervalState := GateClosing)
      else s.(vesselsInLock := rest, remainingTime := cfg.timeBetweenDepartures as real, intervalState := GateIsOpen)
  }

  /** `intTransition`: the next phase lasts the nominal time of the phase
      being LEFT (the source's own choice), except between two departures.
      Leaving gate-closing admits vessels, leaving washing flips the water
      level and counts the washing (and an idle cycle when the chamber is
      empty), leaving gate-open lets the head of the chamber go. */
  function IntTransition(cfg: Config, s: LockState): (r: Result<LockState>)
    ensures r.Ok? <==> !(s.intervalState.GateClosing? && |s.vesselsInLock| > 0)
    ensures r.Ok? && !(s.intervalState.GateIsOpen? && |s.vesselsInLock| > 1) ==>
              r.value.intervalState == s.intervalState.Next()
              && r.value.remainingTime == NormalTransitionTime(cfg, s.intervalState) as real
    ensures r.Ok? && s.intervalState.GateIsOpen? && |s.vesselsInLock| > 1 ==>
              r.value.intervalState == GateIsOpen && r.value.remainingTime == cfg.timeBetweenDepartures as real
    ensures r.Ok? && !s.intervalState.Washing? ==> r.value.currentWaterLevel == s.currentWaterLevel
    ensures r.Ok? && s.intervalState.Washing? ==>
              && r.value.currentWaterLevel == s.currentWaterLevel.Swapped()
              && r.value.numberOfWashings == s.numberOfWashings + 1
              && r.value.sumRemainingSurfaceArea == s.sumRemainingSurfaceArea + (cfg.surfaceArea - s.currentSurfaceArea)
              && (|s.vesselsInLock| == 0 ==>
                    r.value.numberLockStateChangesWithNoVessels == s.numberLockStateChangesWithNoVessels + 1
                    && r.value.idleTime == s.idleTime + cfg.lockShiftInterval)
              && (|s.vesselsInLock| > 0 ==>
                    r.value.numberLockStateChangesWithNoVessels == s.numberLockStateChangesWithNoVessels
                    && r.value.idleTime == s.idleTime)
    ensures r.Ok? && !s.intervalState.Washing? ==>
              r.value.numberOfWashings == s.numberOfWashings && r.value.idleTime == s.idleTime
    // the chamber only fills when the gate closes, and only empties while it is open
    ensures r.Ok? && (s.intervalState.Washing? || s.intervalState.GateOpening?) ==>
              r.value.vesselsInLock == s.vesselsInLock && r.value.Waiting(Low) == s.Waiting(Low)
              && r.value.Waiting(High) == s.Waiting(High)
    ensures r.Ok? && s.intervalState.GateIsOpen? ==>
              (|s.vesselsInLock| > 0 ==> r.value.vesselsInLock == s.vesselsInLock[1..])
              && r.value.Waiting(Low) == s.Waiting(Low) && r.value.Waiting(High) == s.Waiting(High)
    ensures r.Ok? && s.intervalState.GateClosing? ==>
              var w := s.currentWaterLevel;
              && Interleaves(s.Waiting(w), r.value.vesselsInLock, r.value.Waiting(w))
              && r.value.vesselsInLock == Admit(s.currentSurfaceArea, s.Waiting(w)).0
              && r.value.Waiting(w) == Admit(s.currentSurfaceArea, s.Waiting(w)).1
              && r.value.Waiting(w.Swapped()) == s.Waiting(w.Swapped())
              && (forall i :: 0 <= i < |r.value.Waiting(w)| ==>
                    AreaOf(r.value.vesselsInLock) + r.value.Waiting(w)[i].SurfaceArea() > s.currentSurfaceArea)
    ensures r.Ok? && ConfigOk(cfg) && Valid(cfg, s) ==> Valid(cfg, r.value)
  {
    var timed := s.(remainingTime := NormalTransitionTime(cfg, s.intervalState) as real);
    match s.intervalState
    case GateClosing =>
      var t := Transfer(cfg, timed);
      if t.Err? then t else Ok(t.value.(intervalState := Washing))
    case Washing =>
      var empty := |s.vesselsInLock| == 0;
      Ok(timed.(currentWaterLevel := s.currentWaterLevel.Swapped(),
                sumRemainingSurfaceArea := s.sumRemainingSurfaceArea + (cfg.surfaceArea - s.currentSurfaceArea),
                numberOfWashings := s.numberOfWashings + 1,
                numberLockStateChangesWithNoVessels := s.numberLockStateChangesWithNoVessels + (if empty then 1 else 0),
                idleTime := s.idleTime + (if empty then cfg.lockShiftInterval else 0),
                intervalState := GateOpening))
    case GateOpening =>
      Ok(timed.(intervalState := GateIsOpen))
    case GateIsOpen =>
      AreaOfTail(s.vesselsInLock);
      Ok(HandleGateIsOpen(cfg, timed))
  }

  /** `outputFnc`: only with the gate open and vessels in the chamber, the
      head of the chamber leaves on the out-port of the current level. */
  function Output(s: LockState): (r: Option<(WaterLevel, Vessel)>)
    ensures r.Some? <==> s.intervalState.GateIsOpen? && |s.vesselsInLock| > 0
    ensures r.Some? ==> r.value == (s.currentWaterLevel, s.vesselsInLock[0])
  {
    if s.intervalState.GateIsOpen? && |s.vesselsInLock| > 0 then Some((s.currentWaterLevel, s.vesselsInLock[0]))
    else None
  }

  /** A cycle that starts with the gate open and the chamber empty runs
      through all four phases and comes back open at the other level.  Each
      phase lasts the nominal time of its predecessor, and together they
      fill exactly one lock shift. */
  lemma {:induction false} CycleFillsOneShift(cfg: Config, s: LockState)
    requires Valid(cfg, s) && s.intervalState.GateIsOpen? && |s.vesselsInLock| == 0
    ensures
      var s1 := IntTransition(cfg, s);
      s1.Ok? && s1.value.intervalState.GateClosing? &&
      var s2 := IntTransition(cfg, s1.value);
      s2.Ok? && s2.value.intervalState.Washing? &&
      var s3 := IntTransition(cfg, s2.value);
      s3.Ok? && s3.value.intervalState.GateOpening? &&
      var s4 := IntTransition(cfg, s3.value);
      s4.Ok? && s4.value.intervalState.GateIsOpen? && s4.value.currentWaterLevel == s.currentWaterLevel.Swapped()
      && s1.value.remainingTime == (cfg.lockShiftInterval - 2 * cfg.gateDuration - cfg.washingDuration) as real
      && s2.value.remainingTime == cfg.gateDuration as real
      && s3.value.remainingTime == cfg.washingDuration as real
      && s4.value.remainingTime == cfg.gateDuration as real
      && s1.value.remainingTime + s2.value.remainingTime + s3.value.remainingTime + s4.value.remainingTime
         == cfg.lockShiftInterval as real
  {
    OpenEmptyStartsClosing(cfg, s);
    var s1 := IntTransition(cfg, s).value;
    ClosingStartsWashing(cfg, s1);
    var s2 := IntTransition(cfg, s1).value;
    WashingStartsOpening(cfg, s2);
    var s3 := IntTransition(cfg, s2).value;
    OpeningOpens(cfg, s3);
  }

  lemma OpenEmptyStartsClosing(cfg: Config, s: LockState)
    requires Valid(cfg, s) && s.intervalState.GateIsOpen? && |s.vesselsInLock| == 0
    ensures IntTransition(cfg, s).Ok?
    ensures var r := IntTransition(cfg, s).value;
      && r.intervalState.GateClosing? && |r.vesselsInLock| == 0 && r.currentWaterLevel == s.currentWaterLevel
      && r.remainingTime == (cfg.lockShiftInterval - 2 * cfg.gateDuration - cfg.washingDuration) as real
  {
  }

  lemma ClosingStartsWashing(cfg: Config, s: LockState)
    requires s.intervalState.GateClosing? && |s.vesselsInLock| == 0
    ensures IntTransition(cfg, s).Ok?
    ensures var r := IntTransition(cfg, s).value;
      && r.intervalState.Washing? && r.currentWaterLevel == s.currentWaterLevel
      && r.remainingTime == cfg.gateDuration as real
  {
  }

  lemma WashingStartsOpening(cfg: Config, s: LockState)
    requires s.intervalState.Washing?
    ensures IntTransition(cfg, s).Ok?
    ensures var r := IntTransition(cfg, s).value;
      && r.intervalState.GateOpening? && r.currentWaterLevel == s.currentWaterLevel.Swapped()
      && r.remainingTime == cfg.washingDuration as real
  {
  }

  lemma OpeningOpens(cfg: Config, s: LockState)
    requires s.intervalState.GateOpening?
    ensures IntTransition(cfg, s).Ok?
    ensures var r := IntTransition(cfg, s).value;
      && r.intervalState.GateIsOpen? && r.currentWaterLevel == s.currentWaterLevel
      && r.remainingTime == cfg.gateDuration as real
  {
  }
}
