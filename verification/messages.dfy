/** Payloads that travel over ports: vessels and the three handshake
    messages of models/messages.py (`PortDepartureRequest`, which the dock
    sends, is not defined there; it is defined here with its one field). */
module Messages {
  import opened Vessels

  datatype PortEntryRequest = PortEntryRequest(vesselUid: int)

  datatype PortEntryPermission = PortEntryPermission(vesselUid: int, avlDock: string)

  datatype PortDepartureRequest = PortDepartureRequest(dock: string)

  /** Whatever a port may carry.  Python inputs are untyped, which is why
      the components assert `isinstance` on them. */
  datatype Message =
    | VesselMsg(vessel: Vessel)
    | RequestMsg(request: PortEntryRequest)
    | PermissionMsg(permission: PortEntryPermission)
    | DepartureMsg(departure: PortDepartureRequest)
}
