/** models/control_tower.py: hands out dock spots.  A port-entry request is
    answered at once with a permission for the first dock, in configuration
    order, that still has a free spot; when every dock is full the request is
    queued.  Spots are never given back. */
module ControlTower {
  import opened Wrappers
  import opened Devs
  import opened Messages

  /** `docks_capacities`: dock names with their number of spots, in the
      insertion order of the source's dictionary. */
  datatype Config = Config(docksCapacities: seq<(string, int)>)

  /** A dictionary has each key once. */
  predicate DistinctDocks(spots: seq<(string, int)>) {
    forall i, j :: 0 <= i < j < |spots| ==> spots[i].0 != spots[j].0
  }

  predicate NonNegative(spots: seq<(string, int)>) {
    forall i :: 0 <= i < |spots| ==> spots[i].1 >= 0
  }

  datatype ControlTowerState = ControlTowerState(
    docksFreeSpots: seq<(string, int)>,
    remainingTime: Time,
    portEntryRequests: seq<PortEntryRequest>,
    storedPortEntryPermission: Option<PortEntryPermission>)

  /** Initially every dock has all of its configured spots free. */
  function Initial(cfg: Config): (s: ControlTowerState)
    ensures s.docksFreeSpots == cfg.docksCapacities && s.remainingTime == Inf
    ensures s.portEntryRequests == [] && s.storedPortEntryPermission.None?
  {
    ControlTowerState(cfg.docksCapacities, Inf, [], None)
  }

  predicate AllOccupied(spots: seq<(string, int)>) {
    forall i :: 0 <= i < |spots| ==> spots[i].1 == 0
  }

  /** The position of the first dock whose count is not zero. */
  function FirstAvailableDock(spots: seq<(string, int)>): (k: Option<nat>)
    ensures k.None? <==> AllOccupied(spots)
    ensures k.Some? ==> k.value < |spots| && spots[k.value].1 != 0
    ensures k.Some? ==> forall j :: 0 <= j < k.value ==> spots[j].1 == 0
  {
    if |spots| == 0 then None
    else if spots[0].1 != 0 then Some(0)
    else
      var k := FirstAvailableDock(spots[1..]);
      if k.None? then None else Some(k.value + 1)
  }

  /** `extTransition`: a request when every dock is full is queued and
      nothing else changes.  Otherwise the first dock with a non-zero count
      gives up one spot, which must not go below zero, and a permission for
      the requesting vessel and that dock is scheduled immediately.  Anything
      but a request fails the source's assertion; no input changes nothing. */
  function ExtTransition(s: ControlTowerState, e: real, inRequest: Option<Message>): (r: Result<ControlTowerState>)
    requires 0.0 <= e && s.remainingTime.AtLeast(e)
    ensures inRequest.None? ==> r == Ok(s)
    ensures inRequest.Some? && !inRequest.value.RequestMsg? ==> r.Err?
    ensures inRequest.Some? && inRequest.value.RequestMsg? && AllOccupied(s.docksFreeSpots) ==>
              r == Ok(s.(portEntryRequests := s.portEntryRequests + [inRequest.value.request]))
    ensures inRequest.Some? && inRequest.value.RequestMsg? && !AllOccupied(s.docksFreeSpots) ==>
              var k := FirstAvailableDock(s.docksFreeSpots).value;
              && (r.Ok? <==> s.docksFreeSpots[k].1 > 0)
              && (r.Ok? ==>
                    && |r.value.docksFreeSpots| == |s.docksFreeSpots|
                    && r.value.docksFreeSpots[k] == (s.docksFreeSpots[k].0, s.docksFreeSpots[k].1 - 1)
                    && (forall j :: 0 <= j < |s.docksFreeSpots| && j != k ==> r.value.docksFreeSpots[j] == s.docksFreeSpots[j])
                    && r.value.remainingTime == Fin(0.0)
                    && r.value.storedPortEntryPermission
                       == Some(PortEntryPermission(inRequest.value.request.vesselUid, s.docksFreeSpots[k].0))
                    && r.value.portEntryRequests == s.portEntryRequests)
  {
    if inRequest.None? then Ok(s)
    else if !inRequest.value.RequestMsg? then Err("extTransition: input is not a PortEntryRequest")
    else
      var request := inRequest.value.request;
      match FirstAvailableDock(s.docksFreeSpots)
      case None => Ok(s.(portEntryRequests := s.portEntryRequests + [request]))
      case Some(k) =>
        var (dock, count) := s.docksFreeSpots[k];
        if count - 1 >= 0 then
          Ok(s.(docksFreeSpots := s.docksFreeSpots[k := (dock, count - 1)],
                remainingTime := Fin(0.0),
                storedPortEntryPermission := Some(PortEntryPermission(request.vesselUid, dock))))
        else Err("extTransition: negative number of free spots")
  }

  /** `outputFnc`: the stored permission; having none fails the source's
      assertion.  Clearing it is left to the internal transition. */
  function Output(s: ControlTowerState): (r: Result<PortEntryPermission>)
    ensures r.Ok? <==> s.storedPortEntryPermission.Some?
    ensures r.Ok? ==> r.value == s.storedPortEntryPermission.value
  {
    if s.storedPortEntryPermission.Some? then Ok(s.storedPortEntryPermission.value)
    else Err("outputFnc: no permission stored")
  }

  /** `intTransition`, together with the clearing `outputFnc` performs: the
      permission is sent exactly once and the tower waits for input again. */
  function IntTransition(s: ControlTowerState): (r: ControlTowerState)
    ensures r.remainingTime == Inf && r.storedPortEntryPermission.None?
    ensures r.docksFreeSpots == s.docksFreeSpots && r.portEntryRequests == s.portEntryRequests
  {
    s.(remainingTime := Inf, storedPortEntryPermission := None)
  }

  // -----------------------------------------------------------------------
  // Conservation of dock spots over a stream of requests, each answered
  // before the next arrives.

  /** The number of permissions in `ps` for dock `dock`. */
  function Issued(ps: seq<PortEntryPermission>, dock: string): nat {
    if |ps| == 0 then 0
    else (if ps[0].avlDock == dock then 1 else 0) + Issued(ps[1..], dock)
  }

  lemma {:induction false} IssuedAppend(a: seq<PortEntryPermission>, b: seq<PortEntryPermission>, dock: string)
    ensures Issued(a + b, dock) == Issued(a, dock) + Issued(b, dock)
  {
    if |a| == 0 {
      assert a + b == b;
    } else {
      assert (a + b)[1..] == a[1..] + b;
      IssuedAppend(a[1..], b, dock);
    }
  }

  /** One request fed to an idle tower: it is either queued, or answered by
      a permission that is output and cleared at once. */
  function Answer(s: ControlTowerState, request: PortEntryRequest): (r: Result<(ControlTowerState, seq<PortEntryPermission>)>)
    requires s.storedPortEntryPermission.None? && s.remainingTime == Inf
    ensures r.Ok? ==> r.value.0.storedPortEntryPermission.None? && r.value.0.remainingTime == Inf
  {
    match ExtTransition(s, 0.0, Some(RequestMsg(request)))
    case Err(m) => Err(m)
    case Ok(s1) =>
      if s1.storedPortEntryPermission.Some?
      then Ok((IntTransition(s1), [s1.storedPortEntryPermission.value]))
      else Ok((s1, []))
  }

  /** Conservation for one request: it is queued or answered, and the dock
      that answers loses exactly the one spot it issued. */
  lemma AnswerConserves(s: ControlTowerState, request: PortEntryRequest)
    requires s.storedPortEntryPermission.None? && s.remainingTime == Inf
    requires DistinctDocks(s.docksFreeSpots) && NonNegative(s.docksFreeSpots)
    ensures Answer(s, request).Ok?
    ensures var (s2, issued) := Answer(s, request).value;
      && |s2.docksFreeSpots| == |s.docksFreeSpots|
      && NonNegative(s2.docksFreeSpots) && DistinctDocks(s2.docksFreeSpots)
      && (forall k :: 0 <= k < |s.docksFreeSpots| ==>
            s2.docksFreeSpots[k].0 == s.docksFreeSpots[k].0
            && s2.docksFreeSpots[k].1 + Issued(issued, s.docksFreeSpots[k].0) == s.docksFreeSpots[k].1)
      && |s2.portEntryRequests| >= |s.portEntryRequests|
      && s2.portEntryRequests[..|s.portEntryRequests|] == s.portEntryRequests
      && |issued| + (|s2.portEntryRequests| - |s.portEntryRequests|) == 1
  {
    var (s2, issued) := Answer(s, request).value;
    forall k | 0 <= k < |s.docksFreeSpots|
      ensures s2.docksFreeSpots[k].1 + Issued(issued, s.docksFreeSpots[k].0) == s.docksFreeSpots[k].1
    {
      if issued != [] {
        var j := FirstAvailableDock(s.docksFreeSpots).value;
        assert issued[1..] == [];
        assert Issued(issued, s.docksFreeSpots[k].0) == (if k == j then 1 else 0);
      } else {
        assert Issued(issued, s.docksFreeSpots[k].0) == 0;
      }
    }
  }

  /** Feeds the requests one by one to an idle tower, answering each before
      the next arrives. */
  function Serve(s: ControlTowerState, requests: seq<PortEntryRequest>): Result<(ControlTowerState, seq<PortEntryPermission>)>
    requires s.storedPortEntryPermission.None? && s.remainingTime == Inf
    decreases |requests|
  {
    if |requests| == 0 then Ok((s, []))
    else match Answer(s, requests[0])
      case Err(m) => Err(m)
      case Ok((s2, issued)) =>
        match Serve(s2, requests[1..])
        case Err(m) => Err(m)
        case Ok((fin, ps)) => Ok((fin, issued + ps))
  }

  /** Conservation: with distinct dock names and no negative counts, every
      request is handled, and for every dock the spots still free plus the
      permissions issued for it equal the spots it had at the start.  Each
      request is answered or queued, and queued requests are never served. */
  lemma {:induction false} SpotsAreConserved(s: ControlTowerState, requests: seq<PortEntryRequest>)
    requires s.storedPortEntryPermission.None? && s.remainingTime == Inf
    requires DistinctDocks(s.docksFreeSpots) && NonNegative(s.docksFreeSpots)
    ensures Serve(s, requests).Ok?
    ensures var (fin, ps) := Serve(s, requests).value;
      && |fin.docksFreeSpots| == |s.docksFreeSpots|
      && NonNegative(fin.docksFreeSpots)
      && (forall k :: 0 <= k < |s.docksFreeSpots| ==>
            fin.docksFreeSpots[k].0 == s.docksFreeSpots[k].0
            && fin.docksFreeSpots[k].1 + Issued(ps, s.docksFreeSpots[k].0) == s.docksFreeSpots[k].1)
      && |fin.portEntryRequests| >= |s.portEntryRequests|
      && fin.portEntryRequests[..|s.portEntryRequests|] == s.portEntryRequests
      && |ps| + (|fin.portEntryRequests| - |s.portEntryRequests|) == |requests|
    decreases |requests|
  {
    if |requests| > 0 {
      AnswerConserves(s, requests[0]);
      var (s2, issued) := Answer(s, requests[0]).value;
      SpotsAreConserved(s2, requests[1..]);
      var (fin, ps) := Serve(s2, requests[1..]).value;
      assert Serve(s, requests).value == (fin, issued + ps);
      forall k | 0 <= k < |s.docksFreeSpots|
        ensures fin.docksFreeSpots[k].1 + Issued(issued + ps, s.docksFreeSpots[k].0) == s.docksFreeSpots[k].1
      {
        IssuedAppend(issued, ps, s.docksFreeSpots[k].0);
      }
      assert fin.portEntryRequests[..|s.portEntryRequests|] == s2.portEntryRequests[..|s.portEntryRequests|];
    }
  }

  // -----------------------------------------------------------------------
  // A request that arrives while a permission is still pending (time
  // advance 0, elapsed time 0) replaces the stored permission: its spot is
  // taken, but the earlier vessel's permission is never sent.

  /** For any tower holding a permission, a second request that finds a free
      dock takes a spot and leaves only its own permission stored. */
  lemma PendingPermissionIsOverwritten(s: ControlTowerState, e: real, request: PortEntryRequest)
    requires 0.0 <= e && s.remainingTime.AtLeast(e)
    requires s.storedPortEntryPermission.Some? && NonNegative(s.docksFreeSpots) && !AllOccupied(s.docksFreeSpots)
    ensures ExtTransition(s, e, Some(RequestMsg(request))).Ok?
    ensures var r := ExtTransition(s, e, Some(RequestMsg(request))).value;
      && r.storedPortEntryPermission.value.vesselUid == request.vesselUid
      && (request.vesselUid != s.storedPortEntryPermission.value.vesselUid ==>
            r.storedPortEntryPermission != s.storedPortEntryPermission)
      && Sum(r.docksFreeSpots) + 1 == Sum(s.docksFreeSpots)
  {
    var k := FirstAvailableDock(s.docksFreeSpots).value;
    var r := ExtTransition(s, e, Some(RequestMsg(request))).value;
    SumAfterTake(s.docksFreeSpots, k, r.docksFreeSpots);
  }

  /** The free spots of all docks together. */
  function Sum(spots: seq<(string, int)>): int
    decreases |spots|
  {
    if |spots| == 0 then 0 else spots[0].1 + Sum(spots[1..])
  }

  lemma {:induction false} SumAfterTake(spots: seq<(string, int)>, k: nat, spots': seq<(string, int)>)
    requires k < |spots| == |spots'|
    requires spots'[k].1 == spots[k].1 - 1
    requires forall j :: 0 <= j < |spots| && j != k ==> spots'[j] == spots[j]
    ensures Sum(spots') + 1 == Sum(spots)
    decreases k
  {
    if k == 0 {
      assert spots'[1..] == spots[1..];
    } else {
      SumAfterTake(spots[1..], k - 1, spots'[1..]);
    }
  }

  const TwoSpots: Config := Config([("1", 2)])

  function Pending(): ControlTowerState {
    ControlTowerState([("1", 1)], Fin(0.0), [], Some(PortEntryPermission(1, "1")))
  }

  function Overwritten(): ControlTowerState {
    ControlTowerState([("1", 0)], Fin(0.0), [], Some(PortEntryPermission(2, "1")))
  }

  /** Vessels 1 and 2 ask at the same instant: both spots of dock "1" are
      taken, yet only vessel 2 ever receives a permission. */
  lemma SimultaneousRequestsLoseASpot()
    ensures ExtTransition(Initial(TwoSpots), 0.0, Some(RequestMsg(PortEntryRequest(1)))) == Ok(Pending())
    ensures ExtTransition(Pending(), 0.0, Some(RequestMsg(PortEntryRequest(2)))) == Ok(Overwritten())
    ensures Output(Overwritten()) == Ok(PortEntryPermission(2, "1"))
    ensures IntTransition(Overwritten()).storedPortEntryPermission.None?
    ensures IntTransition(Overwritten()).docksFreeSpots[0].1 + Issued([PortEntryPermission(2, "1")], "1")
            < TwoSpots.docksCapacities[0].1
  {
    assert [("1", 2)][0 := ("1", 1)] == [("1", 1)];
    assert [("1", 1)][0 := ("1", 0)] == [("1", 0)];
    assert FirstAvailableDock(Initial(TwoSpots).docksFreeSpots) == Some(0);
    assert FirstAvailableDock(Pending().docksFreeSpots) == Some(0);
    assert Issued([PortEntryPermission(2, "1")], "1") == 1 by {
      assert [PortEntryPermission(2, "1")][1..] == [];
    }
  }
}
