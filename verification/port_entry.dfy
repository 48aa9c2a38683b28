/** The port-entry handshake between models/anchor_point.py and
    models/control_tower.py, as wired in the port network: the anchor
    point's request reaches the tower, and the tower's permission comes
    back to the anchor point. */
module PortEntry {
  import opened Wrappers
  import opened Devs
  import opened Vessels
  import opened Messages
  import AnchorPoint
  import ControlTower

  /** A vessel arriving at an anchor point is released again, after one
      request/permission round trip with an idle tower that has a free spot,
      as the same vessel stamped with the first free dock; the tower has
      given up exactly that spot. */
  lemma ReleaseCarriesReservedDock(a: AnchorPoint.AnchorPointState, tower: ControlTower.ControlTowerState,
                                   e: real, v: Vessel)
    requires 0.0 <= e && a.remainingTime.AtLeast(e)
    requires forall i :: 0 <= i < |a.vessels| ==> a.vessels[i].uid != v.uid
    requires tower.remainingTime == Inf && tower.storedPortEntryPermission.None?
    requires !ControlTower.AllOccupied(tower.docksFreeSpots)
    requires tower.docksFreeSpots[ControlTower.FirstAvailableDock(tower.docksFreeSpots).value].1 > 0
    ensures
      var k := ControlTower.FirstAvailableDock(tower.docksFreeSpots).value;
      var dock := tower.docksFreeSpots[k].0;
      var a1 := AnchorPoint.ExtTransition(a, e, Some(VesselMsg(v)), None);
      a1.Ok? && AnchorPoint.Output(a1.value) == Ok(AnchorPoint.RequestOut(PortEntryRequest(v.uid))) &&
      var a2 := AnchorPoint.IntTransition(a1.value);
      var t1 := ControlTower.ExtTransition(tower, 0.0, Some(RequestMsg(PortEntryRequest(v.uid))));
      t1.Ok? && t1.value.docksFreeSpots[k].1 == tower.docksFreeSpots[k].1 - 1 &&
      ControlTower.Output(t1.value) == Ok(PortEntryPermission(v.uid, dock)) &&
      var a3 := AnchorPoint.ExtTransition(a2, 0.0, None, Some(PermissionMsg(PortEntryPermission(v.uid, dock))));
      a3.Ok? && AnchorPoint.Output(a3.value) == Ok(AnchorPoint.VesselOut(v.(destinationDock := Some(dock))))
  {
    var a1 := AnchorPoint.ExtTransition(a, e, Some(VesselMsg(v)), None).value;
    var a2 := AnchorPoint.IntTransition(a1);
    assert a2.vessels[|a.vessels|] == v;
    assert AnchorPoint.FindVessel(a2.vessels, v.uid) == Some(|a.vessels|);
  }
}
