/** The vessel record of models/vessels.py.  The four dataclass subclasses
    differ only in their defaults, so they become a closed enumeration of
    classes with a constant table of physical properties. */
module Vessels {
  import opened Wrappers

  datatype VesselClass = CrudeOilTanker | BulkCarrier | TugBoat | SmallCargoFreighter {

    /** `vessel_type` */
    function TypeName(): string {
      match this
      case CrudeOilTanker => "Crude Oil Tanker"
      case BulkCarrier => "Bulk Carrier"
      case TugBoat => "Tug Boat"
      case SmallCargoFreighter => "Small Cargo Freighter"
    }

    /** `surface_area`, in square metres */
    function SurfaceArea(): int {
      match this
      case CrudeOilTanker => 11007
      case BulkCarrier => 5399
      case TugBoat => 348
      case SmallCargoFreighter => 1265
    }

    /** `avg_velocity`, in knots */
    function AvgVelocity(): real {
      match this
      case CrudeOilTanker => 10.7
      case BulkCarrier => 12.0
      case TugBoat => 7.8
      case SmallCargoFreighter => 6.4
    }

    /** `max_velocity`, in knots */
    function MaxVelocity(): real {
      match this
      case CrudeOilTanker => 15.4
      case BulkCarrier => 15.6
      case TugBoat => 10.6
      case SmallCargoFreighter => 9.8
    }
  }

  /** A vessel.  `destinationDock` is set by the anchor point and read by the
      confluences; `timeInSystem` is the attribute the sea sink attaches on
      arrival. */
  datatype Vessel = Vessel(
    uid: int,
    creationTime: real,
    destinationDock: Option<string>,
    vesselClass: VesselClass,
    timeInSystem: Option<real>)
  {
    function SurfaceArea(): int { vesselClass.SurfaceArea() }
    function AvgVelocity(): real { vesselClass.AvgVelocity() }
    function MaxVelocity(): real { vesselClass.MaxVelocity() }
  }

  /** Constructing one of the four classes, e.g. `CrudeOilTanker(uid=0,
      creation_time=0)`: only identity and creation time are given, the rest
      are the class defaults. */
  function NewVessel(vesselClass: VesselClass, uid: int, creationTime: real): (v: Vessel)
    ensures v.uid == uid && v.creationTime == creationTime && v.vesselClass == vesselClass
    ensures v.destinationDock == None && v.timeInSystem == None
  {
    Vessel(uid, creationTime, None, vesselClass, None)
  }

  /** `ALL_VESSELS`: the classes a generator draws from. */
  const AllVessels: seq<VesselClass> := [CrudeOilTanker, BulkCarrier, TugBoat, SmallCargoFreighter]

  /** `VESSEL_WEIGHTS`: the draw probability of each entry of `AllVessels`. */
  const VesselWeights: seq<real> := [0.28, 0.22, 0.33, 0.17]

  function Sum(xs: seq<real>): real {
    if |xs| == 0 then 0.0 else xs[0] + Sum(xs[1..])
  }

  /** Every class cruises below its top speed, at a positive speed, and
      occupies a positive area. */
  lemma ClassConstantsAreSane(c: VesselClass)
    ensures 0.0 < c.AvgVelocity() < c.MaxVelocity()
    ensures c.SurfaceArea() > 0
  {
  }

  /** The class table lists each class exactly once, has one weight per
      class, and the weights form a probability distribution. */
  lemma ClassTableIsADistribution()
    ensures |AllVessels| == |VesselWeights| == 4
    ensures forall c: VesselClass :: c in AllVessels
    ensures forall i, j :: 0 <= i < j < |AllVessels| ==> AllVessels[i] != AllVessels[j]
    ensures forall i :: 0 <= i < |VesselWeights| ==> VesselWeights[i] > 0.0
    ensures Sum(VesselWeights) == 1.0
  {
    forall c: VesselClass ensures c in AllVessels {
      match c
      case CrudeOilTanker => assert AllVessels[0] == c;
      case BulkCarrier => assert AllVessels[1] == c;
      case TugBoat => assert AllVessels[2] == c;
      case SmallCargoFreighter => assert AllVessels[3] == c;
    }
    assert Sum(VesselWeights) == 0.28 + Sum(VesselWeights[1..]);
    assert VesselWeights[1..] == [0.22, 0.33, 0.17];
    assert Sum([0.22, 0.33, 0.17]) == 0.22 + Sum([0.33, 0.17]);
    assert [0.22, 0.33, 0.17][1..] == [0.33, 0.17];
    assert Sum([0.33, 0.17]) == 0.33 + Sum([0.17]);
    assert [0.33, 0.17][1..] == [0.17];
    assert Sum([0.17]) == 0.17 + Sum([]);
    assert [0.17][1..] == [];
  }
}
