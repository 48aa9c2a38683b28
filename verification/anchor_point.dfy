/** models/anchor_point.py: where arriving vessels wait for a dock.  Each
    arrival is announced to the control tower with a port-entry request;
    a permission releases the waiting vessel with that uid, stamped with its
    destination dock. */
module AnchorPoint {
  import opened Wrappers
  import opened Devs
  import opened Vessels
  import opened Messages

  /** `what_to_do`: the empty string, "send_port_entry_request" or
      "send_vessel". */
  datatype WhatToDo = Nothing | SendPortEntryRequest | SendVessel

  /** `AnchorPointState`, one per component (the source's class-level
      defaults would share the waiting list between instances). */
  datatype AnchorPointState = AnchorPointState(
    remainingTime: Time,
    vessels: seq<Vessel>,
    whatToDo: WhatToDo,
    storedPortEntryRequest: Option<PortEntryRequest>,
    storedVessel: Option<Vessel>)

  /** What the anchor point sends: a request on `out_port_entry_request` or
      a vessel on `out_vessel`. */
  datatype AnchorOutput = RequestOut(request: PortEntryRequest) | VesselOut(vessel: Vessel)

  function Initial(): (s: AnchorPointState)
    ensures s.remainingTime == Inf && s.vessels == [] && s.whatToDo == Nothing
  {
    AnchorPointState(Inf, [], Nothing, None, None)
  }

  /** The position of the first waiting vessel with uid `uid`. */
  function FindVessel(vs: seq<Vessel>, uid: int): (k: Option<nat>)
    ensures k.None? <==> forall i :: 0 <= i < |vs| ==> vs[i].uid != uid
    ensures k.Some? ==> k.value < |vs| && vs[k.value].uid == uid
    ensures k.Some? ==> forall i :: 0 <= i < k.value ==> vs[i].uid != uid
  {
    if |vs| == 0 then None
    else if vs[0].uid == uid then Some(0)
    else
      var k := FindVessel(vs[1..], uid);
      if k.None? then None else Some(k.value + 1)
  }

  /** `extTransition`: an arriving vessel is queued and a request carrying
      its uid is scheduled immediately; it takes precedence over a
      permission arriving at the same time.  A permission stamps its dock on
      the first waiting vessel with its uid (which stays in the list) and
      schedules that vessel's release immediately; a permission for a uid
      that is not waiting is an error, and so is a payload of the wrong
      type.  No input changes nothing. */
  function ExtTransition(s: AnchorPointState, e: real, inVessel: Option<Message>, inPermission: Option<Message>): (r: Result<AnchorPointState>)
    requires 0.0 <= e && s.remainingTime.AtLeast(e)
    ensures inVessel.None? && inPermission.None? ==> r == Ok(s)
    ensures inVessel.Some? ==> (r.Ok? <==> inVessel.value.VesselMsg?)
    ensures inVessel.Some? && r.Ok? ==>
              r.value == AnchorPointState(Fin(0.0), s.vessels + [inVessel.value.vessel], SendPortEntryRequest,
                                          Some(PortEntryRequest(inVessel.value.vessel.uid)), s.storedVessel)
    ensures inVessel.None? && inPermission.Some? ==>
              (r.Ok? <==> inPermission.value.PermissionMsg?
                          && FindVessel(s.vessels, inPermission.value.permission.vesselUid).Some?)
    ensures inVessel.None? && inPermission.Some? && r.Ok? ==>
              var p := inPermission.value.permission;
              var k := FindVessel(s.vessels, p.vesselUid).value;
              && |r.value.vessels| == |s.vessels|
              && r.value.vessels[k] == s.vessels[k].(destinationDock := Some(p.avlDock))
              && (forall i :: 0 <= i < |s.vessels| && i != k ==> r.value.vessels[i] == s.vessels[i])
              && r.value.storedVessel == Some(r.value.vessels[k])
              && r.value.whatToDo == SendVessel && r.value.remainingTime == Fin(0.0)
              && r.value.storedPortEntryRequest == s.storedPortEntryRequest
  {
    if inVessel.Some? then
      if inVessel.value.VesselMsg? then
        var v := inVessel.value.vessel;
        Ok(s.(vessels := s.vessels + [v], remainingTime := Fin(0.0), whatToDo := SendPortEntryRequest,
              storedPortEntryRequest := Some(PortEntryRequest(v.uid))))
      else Err("extTransition: input is not a vessel")
    else if inPermission.Some? then
      if inPermission.value.PermissionMsg? then
        var p := inPermission.value.permission;
        match FindVessel(s.vessels, p.vesselUid)
        case None => Err("extTransition: no waiting vessel with this uid")
        case Some(k) =>
          var stamped := s.vessels[k].(destinationDock := Some(p.avlDock));
          Ok(s.(vessels := s.vessels[k := stamped], remainingTime := Fin(0.0), whatToDo := SendVessel,
                storedVessel := Some(stamped)))
      else Err("extTransition: input is not a PortEntryPermission")
    else Ok(s)
  }

  /** `outputFnc`: the stored request or the stored vessel, according to
      what there is to do; nothing stored, or nothing to do, fails the
      source's assertions.  Clearing is left to the internal transition. */
  function Output(s: AnchorPointState): (r: Result<AnchorOutput>)
    ensures r.Ok? <==> (s.whatToDo.SendPortEntryRequest? && s.storedPortEntryRequest.Some?)
                       || (s.whatToDo.SendVessel? && s.storedVessel.Some?)
    ensures r.Ok? && s.whatToDo.SendPortEntryRequest? ==> r.value == RequestOut(s.storedPortEntryRequest.value)
    ensures r.Ok? && s.whatToDo.SendVessel? ==> r.value == VesselOut(s.storedVessel.value)
  {
    match s.whatToDo
    case SendPortEntryRequest =>
      if s.storedPortEntryRequest.Some? then Ok(RequestOut(s.storedPortEntryRequest.value))
      else Err("outputFnc: no request stored")
    case SendVessel =>
      if s.storedVessel.Some? then Ok(VesselOut(s.storedVessel.value))
      else Err("outputFnc: no vessel stored")
    case Nothing => Err("outputFnc: nothing to do")
  }

  /** `intTransition`, together with the clearing `outputFnc` performs: the
      item just sent is forgotten, there is nothing left to do, and the
      anchor point waits for input.  The waiting list is not touched, so
      released vessels stay in it. */
  function IntTransition(s: AnchorPointState): (r: AnchorPointState)
    ensures r.remainingTime == Inf && r.whatToDo == Nothing && r.vessels == s.vessels
    ensures s.whatToDo.SendPortEntryRequest? ==>
              r.storedPortEntryRequest.None? && r.storedVessel == s.storedVessel
    ensures s.whatToDo.SendVessel? ==>
              r.storedVessel.None? && r.storedPortEntryRequest == s.storedPortEntryRequest
    ensures s.whatToDo.Nothing? ==>
              r.storedVessel == s.storedVessel && r.storedPortEntryRequest == s.storedPortEntryRequest
  {
    var cleared := match s.whatToDo
      case SendPortEntryRequest => s.(storedPortEntryRequest := None)
      case SendVessel => s.(storedVessel := None)
      case Nothing => s;
    cleared.(remainingTime := Inf, whatToDo := Nothing)
  }
}
