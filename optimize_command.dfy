/** The management command that optimizes delivery batches from the
    console: it selects batches, checks that the owner has an active fleet
    and the batch has deliveries, asks the solver for routes, replaces the
    batch's routes, marks the visited deliveries as assigned and records
    the totals on the batch. */
module OptimizeCommand {
  import opened Support
  import opened Models
  import opened Locations
  import opened Store

  /** One route of a solution: location indices (0 is the depot), its
      distance in kilometres and its duration in minutes. */
  datatype CmdRoute = CmdRoute(stops: seq<int>, distance: real, duration: int)

  /** What the solver stage gives back: an exception, or a list of routes. */
  datatype Solution = SolveThrew | Solution(routes: seq<CmdRoute>)

  /** The console outcome for one batch. */
  datatype BatchReport =
    | NoActiveVehicles
    | NoActiveDrivers
    | NoDeliveries
    | Errored
    | NoValidRoutes
    | Optimized(routeCount: nat)

  /** The console outcome of a whole run. */
  datatype CommandReport = NoBatchFound | NoBatchesToOptimize | Processed(reports: seq<BatchReport>)

  /** A delivery put on a route with its 1-based position. The command sets
      these as attributes that are not columns of the delivery, so they are
      not persisted; only the delivery's status is. */
  datatype Assignment = Assignment(delivery: Id, route: Id, stopOrder: int)

  // ---------------------------------------------------------------- selection

  /** The statuses a run without a batch id picks up. */
  function SelectedStatuses(force: bool): (r: set<BatchStatus>)
    ensures Draft in r
    ensures Ready in r <==> force
    ensures forall s :: s in r ==> s == Draft || s == Ready
  {
    if force then {Draft, Ready} else {Draft}
  }

  function StatusIn(statuses: set<BatchStatus>): DeliveryBatch -> bool
  {
    (b: DeliveryBatch) => b.status in statuses
  }

  function IdIs(id: Id): DeliveryBatch -> bool
  {
    (b: DeliveryBatch) => b.id == id
  }

  /** The batches a run processes, in store order: the one with the given
      id whatever its status, or every batch whose status is selected. */
  function SelectBatches(bs: seq<DeliveryBatch>, batchId: Option<Id>, force: bool): (r: seq<DeliveryBatch>)
    ensures batchId.Some? ==> forall b :: b in r <==> b in bs && b.id == batchId.value
    ensures batchId.None? ==> forall b :: b in r <==> b in bs && b.status in SelectedStatuses(force)
  {
    if batchId.Some? then Filter(IdIs(batchId.value), bs)
    else Filter(StatusIn(SelectedStatuses(force)), bs)
  }

  function VehicleActiveOf(owner: Id): Vehicle -> bool
  {
    (v: Vehicle) => v.owner == owner && v.isActive
  }

  function DriverActiveOf(owner: Id): Driver -> bool
  {
    (d: Driver) => d.owner == owner && d.isActive
  }

  /** The owner's active vehicles, in store order. */
  function ActiveVehicles(vs: seq<Vehicle>, owner: Id): seq<Vehicle>
  {
    Filter(VehicleActiveOf(owner), vs)
  }

  /** The owner's active drivers, in store order. */
  function ActiveDrivers(ds: seq<Driver>, owner: Id): seq<Driver>
  {
    Filter(DriverActiveOf(owner), ds)
  }

  // --------------------------------------------------------------- fleet size

  function Min(a: int, b: int): (m: int)
    ensures m <= a && m <= b && (m == a || m == b)
  {
    if a <= b then a else b
  }

  /** The largest per-vehicle stop limit of the fleet. */
  function MaxStops(vs: seq<Vehicle>): (m: int)
    requires |vs| > 0
    ensures forall k :: 0 <= k < |vs| ==> vs[k].maxStops <= m
    ensures exists k :: 0 <= k < |vs| && vs[k].maxStops == m
  {
    if |vs| == 1 then vs[0].maxStops
    else
      var rest := MaxStops(vs[1..]);
      assert forall k :: 1 <= k < |vs| ==> vs[k] == vs[1..][k - 1];
      if vs[0].maxStops >= rest then vs[0].maxStops
      else
        assert exists k :: 1 <= k < |vs| && vs[k].maxStops == rest by {
          var k :| 0 <= k < |vs| - 1 && vs[1..][k].maxStops == rest;
          assert vs[k + 1].maxStops == rest;
        }
        rest
  }

  /** The solver stage for a batch that passed the checks: building the
      location list raises without depot coordinates; the matrix builder
      and the solver may raise. The solver is asked for as many vehicles as
      there are both active vehicles and active drivers. */
  function SolveStage(b: DeliveryBatch, vs: seq<Vehicle>, drs: seq<Driver>, ds: seq<Delivery>,
                      buildMatrix: seq<Coord> -> Computed<Matrix>,
                      solve: (Matrix, nat, int) -> Solution): Solution
    requires |vs| > 0 && |drs| > 0
  {
    match b.depot
    case None => SolveThrew
    case Some(c) =>
      match buildMatrix([c] + LocatedCoords(ds))
      case Threw => SolveThrew
      case Value(dm) => solve(dm, Min(|vs|, |drs|), MaxStops(vs))
  }

  /** What the command reports for one batch. */
  function Decide(b: DeliveryBatch, vs: seq<Vehicle>, drs: seq<Driver>, ds: seq<Delivery>,
                  buildMatrix: seq<Coord> -> Computed<Matrix>,
                  solve: (Matrix, nat, int) -> Solution): (r: BatchReport)
    ensures r == NoActiveVehicles <==> vs == []
    ensures r == NoActiveDrivers <==> vs != [] && drs == []
    ensures r == NoDeliveries <==> vs != [] && drs != [] && ds == []
    ensures r.Optimized? <==>
              vs != [] && drs != [] && ds != []
              && SolveStage(b, vs, drs, ds, buildMatrix, solve).Solution?
              && SolveStage(b, vs, drs, ds, buildMatrix, solve).routes != []
    ensures r.Optimized? ==> r.routeCount == |SolveStage(b, vs, drs, ds, buildMatrix, solve).routes|
  {
    if vs == [] then NoActiveVehicles
    else if drs == [] then NoActiveDrivers
    else if ds == [] then NoDeliveries
    else
      match SolveStage(b, vs, drs, ds, buildMatrix, solve)
      case SolveThrew => Errored
      case Solution(rs) => if rs == [] then NoValidRoutes else Optimized(|rs|)
  }

  // ------------------------------------------------------------------- plan

  /** The records one run writes for a solution. */
  datatype Plan = Plan(routes: seq<Route>, assignments: seq<Assignment>)

  /** The assignments for the stops of one route, `enumerate(stops, 1)`:
      every non-depot index `k` puts `deliveries[k - 1]`, taken over all of
      the batch's deliveries, on the route; an index past the end (the
      `IndexError` the command catches) is skipped. */
  function RouteAssignments(routeId: Id, stops: seq<int>, ds: seq<Delivery>): seq<Assignment>
  {
    if stops == [] then []
    else
      var n := |stops|;
      var prev := RouteAssignments(routeId, stops[..n - 1], ds);
      var idx := stops[n - 1];
      if idx > 0 && DeliveryAtAsWritten(ds, idx).Some? then prev + [Assignment(DeliveryAtAsWritten(ds, idx).value.id, routeId, n)]
      else prev
  }

  /** Each assignment of a route names that route, a 1-based position on it
      holding a non-depot index `k`, and the delivery `deliveries[k - 1]`;
      conversely every such position whose index is in range yields its
      assignment; positions increase along the list. */
  lemma {:induction false} RouteAssignmentsSound(routeId: Id, stops: seq<int>, ds: seq<Delivery>)
    ensures forall a :: a in RouteAssignments(routeId, stops, ds) ==>
              && a.route == routeId
              && 1 <= a.stopOrder <= |stops|
              && stops[a.stopOrder - 1] > 0
              && DeliveryAtAsWritten(ds, stops[a.stopOrder - 1]).Some?
              && DeliveryAtAsWritten(ds, stops[a.stopOrder - 1]).value.id == a.delivery
    ensures forall p :: 0 <= p < |stops| && stops[p] > 0 && DeliveryAtAsWritten(ds, stops[p]).Some? ==>
              Assignment(DeliveryAtAsWritten(ds, stops[p]).value.id, routeId, p + 1)
              in RouteAssignments(routeId, stops, ds)
    ensures forall i, j :: 0 <= i < j < |RouteAssignments(routeId, stops, ds)| ==>
              RouteAssignments(routeId, stops, ds)[i].stopOrder < RouteAssignments(routeId, stops, ds)[j].stopOrder
  {
    if stops != [] {
      var n := |stops|;
      var init := stops[..n - 1];
      RouteAssignmentsSound(routeId, init, ds);
      assert forall p :: 0 <= p < n - 1 ==> init[p] == stops[p];
    }
  }

  function RouteHasStops(rd: CmdRoute): bool { rd.stops != [] }

  /** The routes and assignments a solution produces: routes without stops
      are skipped but still count for the position `i`, which picks the
      vehicle and the driver round-robin and gives the route order `i + 1`.
      Route keys are handed out from `firstId` in creation order. */
  function PlanOf(batch: Id, rs: seq<CmdRoute>, vs: seq<Vehicle>, drs: seq<Driver>, ds: seq<Delivery>,
                  firstId: nat): Plan
    requires |vs| > 0 && |drs| > 0
  {
    if rs == [] then Plan([], [])
    else
      var n := |rs|;
      var p := PlanOf(batch, rs[..n - 1], vs, drs, ds, firstId);
      if rs[n - 1].stops == [] then p
      else
        var id := firstId + |p.routes|;
        var route := NewRoute(id, batch, vs[(n - 1) % |vs|].id, drs[(n - 1) % |drs|].id, n,
                              rs[n - 1].distance, rs[n - 1].duration);
        Plan(p.routes + [route], p.assignments + RouteAssignments(id, rs[n - 1].stops, ds))
  }

  /** Route `k` of a plan is solver route `routeOrder - 1`, which has stops,
      with the vehicle and the driver picked round-robin by that position,
      the solver's distance and duration, and the `k`-th key handed out. */
  ghost predicate RouteFits(r: Route, k: nat, batch: Id, rs: seq<CmdRoute>, vs: seq<Vehicle>, drs: seq<Driver>,
                            firstId: nat)
    requires |vs| > 0 && |drs| > 0
  {
    && r.id == firstId + k && r.batch == batch && r.status == Planned
    && 1 <= r.routeOrder <= |rs| && rs[r.routeOrder - 1].stops != []
    && r.vehicle == vs[(r.routeOrder - 1) % |vs|].id
    && r.driver == drs[(r.routeOrder - 1) % |drs|].id
    && r.totalDistanceKm == rs[r.routeOrder - 1].distance
    && r.estimatedDurationMinutes == rs[r.routeOrder - 1].duration
  }

  /** The shape of every planned route, and route orders strictly increase. */
  lemma {:induction false} PlanRoutesShape(batch: Id, rs: seq<CmdRoute>, vs: seq<Vehicle>, drs: seq<Driver>,
                                           ds: seq<Delivery>, firstId: nat)
    requires |vs| > 0 && |drs| > 0
    ensures forall k :: 0 <= k < |PlanOf(batch, rs, vs, drs, ds, firstId).routes| ==>
              RouteFits(PlanOf(batch, rs, vs, drs, ds, firstId).routes[k], k, batch, rs, vs, drs, firstId)
    ensures forall k, m :: 0 <= k < m < |PlanOf(batch, rs, vs, drs, ds, firstId).routes| ==>
              PlanOf(batch, rs, vs, drs, ds, firstId).routes[k].routeOrder
              < PlanOf(batch, rs, vs, drs, ds, firstId).routes[m].routeOrder
  {
    if rs != [] {
      var n := |rs|;
      var init := rs[..n - 1];
      PlanRoutesShape(batch, init, vs, drs, ds, firstId);
      var before := PlanOf(batch, init, vs, drs, ds, firstId).routes;
      assert forall k :: 0 <= k < |before| ==> RouteFits(before[k], k, batch, init, vs, drs, firstId);
      var routes := PlanOf(batch, rs, vs, drs, ds, firstId).routes;
      forall k | 0 <= k < |before| ensures RouteFits(before[k], k, batch, rs, vs, drs, firstId) {
        assert RouteFits(before[k], k, batch, init, vs, drs, firstId);
        assert rs[before[k].routeOrder - 1] == init[before[k].routeOrder - 1];
      }
      if rs[n - 1].stops != [] {
        assert routes == before + [routes[|before|]];
        assert routes[|before|].routeOrder == n;
      }
    }
  }

  /** A plan has one route per solver route with stops. */
  lemma {:induction false} PlanCount(batch: Id, rs: seq<CmdRoute>, vs: seq<Vehicle>, drs: seq<Driver>,
                                     ds: seq<Delivery>, firstId: nat)
    requires |vs| > 0 && |drs| > 0
    ensures |PlanOf(batch, rs, vs, drs, ds, firstId).routes| == |Filter(RouteHasStops, rs)|
  {
    if rs != [] {
      var n := |rs|;
      var init := rs[..n - 1];
      PlanCount(batch, init, vs, drs, ds, firstId);
      assert rs == init + [rs[n - 1]];
      FilterAppend(RouteHasStops, init, [rs[n - 1]]);
      assert [rs[n - 1]][1..] == [];
    }
  }

  /** Every assignment of a plan refers to one of the plan's routes. */
  lemma {:induction false} PlanAssignmentsOnRoutes(batch: Id, rs: seq<CmdRoute>, vs: seq<Vehicle>, drs: seq<Driver>,
                                                   ds: seq<Delivery>, firstId: nat)
    requires |vs| > 0 && |drs| > 0
    ensures var p := PlanOf(batch, rs, vs, drs, ds, firstId);
            forall a :: a in p.assignments ==> exists k :: 0 <= k < |p.routes| && p.routes[k].id == a.route
  {
    if rs != [] {
      var n := |rs|;
      PlanAssignmentsOnRoutes(batch, rs[..n - 1], vs, drs, ds, firstId);
      var p0 := PlanOf(batch, rs[..n - 1], vs, drs, ds, firstId);
      var p := PlanOf(batch, rs, vs, drs, ds, firstId);
      if rs[n - 1].stops != [] {
        RouteAssignmentsSound(firstId + |p0.routes|, rs[n - 1].stops, ds);
        forall a | a in p.assignments ensures exists k :: 0 <= k < |p.routes| && p.routes[k].id == a.route {
          if a in p0.assignments {
            var k :| 0 <= k < |p0.routes| && p0.routes[k].id == a.route;
            assert p.routes[k] == p0.routes[k];
          } else {
            assert p.routes[|p0.routes|].id == a.route;
          }
        }
      }
    }
  }

  /** The batch's total distance: the sum over the routes with stops. */
  function TotalDistance(rs: seq<CmdRoute>): real
  {
    if rs == [] then 0.0
    else TotalDistance(rs[..|rs| - 1]) + (if rs[|rs| - 1].stops != [] then rs[|rs| - 1].distance else 0.0)
  }

  /** The batch's total duration: the sum over the routes with stops. */
  function TotalDuration(rs: seq<CmdRoute>): int
  {
    if rs == [] then 0
    else TotalDuration(rs[..|rs| - 1]) + (if rs[|rs| - 1].stops != [] then rs[|rs| - 1].duration else 0)
  }

  function SumKm(routes: seq<Route>): real
  {
    if routes == [] then 0.0 else SumKm(routes[..|routes| - 1]) + routes[|routes| - 1].totalDistanceKm
  }

  function SumMinutes(routes: seq<Route>): int
  {
    if routes == [] then 0 else SumMinutes(routes[..|routes| - 1]) + routes[|routes| - 1].estimatedDurationMinutes
  }

  lemma SumAppend(routes: seq<Route>, r: Route)
    ensures SumKm(routes + [r]) == SumKm(routes) + r.totalDistanceKm
    ensures SumMinutes(routes + [r]) == SumMinutes(routes) + r.estimatedDurationMinutes
  {
    assert (routes + [r])[..|routes|] == routes;
  }

  /** The totals the command writes on the batch are the sums over the route
      records it creates. */
  lemma {:induction false} TotalsMatchRoutes(batch: Id, rs: seq<CmdRoute>, vs: seq<Vehicle>, drs: seq<Driver>,
                                             ds: seq<Delivery>, firstId: nat)
    requires |vs| > 0 && |drs| > 0
    ensures SumKm(PlanOf(batch, rs, vs, drs, ds, firstId).routes) == TotalDistance(rs)
    ensures SumMinutes(PlanOf(batch, rs, vs, drs, ds, firstId).routes) == TotalDuration(rs)
  {
    if rs != [] {
      var n := |rs|;
      TotalsMatchRoutes(batch, rs[..n - 1], vs, drs, ds, firstId);
      PlanStep(batch, rs, vs, drs, ds, firstId);
      var before := PlanOf(batch, rs[..n - 1], vs, drs, ds, firstId).routes;
      if rs[n - 1].stops != [] {
        SumAppend(before, PlanOf(batch, rs, vs, drs, ds, firstId).routes[|before|]);
      }
    }
  }

  /** How a plan grows by one solver route. */
  lemma PlanStep(batch: Id, rs: seq<CmdRoute>, vs: seq<Vehicle>, drs: seq<Driver>, ds: seq<Delivery>, firstId: nat)
    requires |vs| > 0 && |drs| > 0 && rs != []
    ensures var n := |rs|;
            var before := PlanOf(batch, rs[..n - 1], vs, drs, ds, firstId).routes;
            var routes := PlanOf(batch, rs, vs, drs, ds, firstId).routes;
            if rs[n - 1].stops == [] then routes == before
            else && |routes| == |before| + 1 && routes == before + [routes[|before|]]
                 && routes[|before|].totalDistanceKm == rs[n - 1].distance
                 && routes[|before|].estimatedDurationMinutes == rs[n - 1].duration
  {
  }

  /** When the solution has no more routes than the fleet has vehicles, no
      two routes share a vehicle, and likewise for drivers. */
  lemma RoundRobinDistinct(batch: Id, rs: seq<CmdRoute>, vs: seq<Vehicle>, drs: seq<Driver>,
                           ds: seq<Delivery>, firstId: nat, k: nat, m: nat)
    requires |vs| > 0 && |drs| > 0
    requires |rs| <= Min(|vs|, |drs|)
    requires forall i, j :: 0 <= i < j < |vs| ==> vs[i].id != vs[j].id
    requires forall i, j :: 0 <= i < j < |drs| ==> drs[i].id != drs[j].id
    requires k < m < |PlanOf(batch, rs, vs, drs, ds, firstId).routes|
    ensures PlanOf(batch, rs, vs, drs, ds, firstId).routes[k].vehicle != PlanOf(batch, rs, vs, drs, ds, firstId).routes[m].vehicle
    ensures PlanOf(batch, rs, vs, drs, ds, firstId).routes[k].driver != PlanOf(batch, rs, vs, drs, ds, firstId).routes[m].driver
  {
    var p := PlanOf(batch, rs, vs, drs, ds, firstId);
    PlanRoutesShape(batch, rs, vs, drs, ds, firstId);
    assert RouteFits(p.routes[k], k, batch, rs, vs, drs, firstId);
    assert RouteFits(p.routes[m], m, batch, rs, vs, drs, firstId);
    var ok, om := p.routes[k].routeOrder - 1, p.routes[m].routeOrder - 1;
    assert ok < om < |rs|;
    ModSmall(ok, |vs|);
    ModSmall(om, |vs|);
    ModSmall(ok, |drs|);
    ModSmall(om, |drs|);
  }

  lemma ModSmall(a: int, n: int)
    requires 0 <= a < n
    ensures a % n == a
  {
  }

  /** When every delivery of the batch has coordinates, every delivery the
      command assigns is a delivery of the batch sitting at the location
      the solver put on the route. (Otherwise the index is taken over all
      deliveries while the locations hold only the located ones, and the
      two drift apart: see Locations.DeliveryAtAsWrittenMisaligned.) */
  lemma AssignedAreLocated(routeId: Id, stops: seq<int>, ds: seq<Delivery>, depot: Coord, a: Assignment)
    requires forall d :: d in ds ==> HasCoordinates(d)
    requires a in RouteAssignments(routeId, stops, ds)
    ensures exists d :: d in ds && d.id == a.delivery && d.coordinates.Some?
    ensures && 1 <= a.stopOrder <= |stops|
            && var k := stops[a.stopOrder - 1];
               var locs := [depot] + LocatedCoords(ds);
               && 0 < k < |locs|
               && DeliveryAtAsWritten(ds, k).Some?
               && DeliveryAtAsWritten(ds, k).value.id == a.delivery
               && DeliveryAtAsWritten(ds, k).value.coordinates == Some(locs[k])
  {
    RouteAssignmentsSound(routeId, stops, ds);
    var k := stops[a.stopOrder - 1];
    DeliveryAtAgreesWhenAllLocated(ds, k);
    DeliveryAtMatchesLocation(depot, ds, k);
    var d := DeliveryAt(ds, k).value;
    assert d in Located(ds);
  }

  // ------------------------------------------------------------------ writes

  function AssignedIds(assigns: seq<Assignment>): set<Id>
  {
    set a | a in assigns :: a.delivery
  }

  /** The deliveries with the given keys marked `assigned`, the others as they were. */
  function MarkAssigned(ds: seq<Delivery>, ids: set<Id>): (r: seq<Delivery>)
    ensures |r| == |ds|
    ensures forall k :: 0 <= k < |ds| ==>
              r[k] == if ds[k].id in ids then ds[k].(status := Assigned) else ds[k]
  {
    seq(|ds|, k requires 0 <= k < |ds| => if ds[k].id in ids then ds[k].(status := Assigned) else ds[k])
  }

  /** Marking twice is marking once with both sets of keys. */
  lemma MarkAssignedTwice(ds: seq<Delivery>, a: set<Id>, b: set<Id>)
    ensures MarkAssigned(MarkAssigned(ds, a), b) == MarkAssigned(ds, a + b)
  {
    var l, r := MarkAssigned(MarkAssigned(ds, a), b), MarkAssigned(ds, a + b);
    forall k | 0 <= k < |ds| ensures l[k] == r[k] {
      assert MarkAssigned(ds, a)[k].id == ds[k].id;
    }
  }

  /** Walk one route's stops, marking each resolved delivery `assigned`. */
  method WriteAssignments(db: Database, routeId: Id, stops: seq<int>, ds: seq<Delivery>)
    returns (assigns: seq<Assignment>)
    requires db.Valid()
    modifies db`deliveries
    ensures db.Valid()
    ensures assigns == RouteAssignments(routeId, stops, ds)
    ensures db.deliveries == MarkAssigned(old(db.deliveries), AssignedIds(assigns))
  {
    ghost var before := db.deliveries;
    assigns := [];
    assert stops[..0] == [];
    for j := 0 to |stops|
      invariant db.Valid()
      invariant assigns == RouteAssignments(routeId, stops[..j], ds)
      invariant db.deliveries == MarkAssigned(before, AssignedIds(assigns))
    {
      assert stops[..j + 1][..j] == stops[..j];
      var idx := stops[j];
      if idx > 0 {
        var d := DeliveryAtAsWritten(ds, idx);
        if d.Some? {
          db.SetDeliveryStatus(d.value.id, Assigned);
          ghost var mid := MarkAssigned(before, AssignedIds(assigns));
          assert db.deliveries == MarkAssigned(mid, {d.value.id});
          MarkAssignedTwice(before, AssignedIds(assigns), {d.value.id});
          assert AssignedIds(assigns + [Assignment(d.value.id, routeId, j + 1)]) == AssignedIds(assigns) + {d.value.id};
          assigns := assigns + [Assignment(d.value.id, routeId, j + 1)];
        }
      }
    }
    assert stops[..|stops|] == stops;
  }

  /** How the plan for the first `i + 1` solver routes extends the plan for the first `i`. */
  lemma PlanPrefixStep(batch: Id, rs: seq<CmdRoute>, vs: seq<Vehicle>, drs: seq<Driver>, ds: seq<Delivery>,
                       firstId: nat, i: nat, plan: Plan, id: Id)
    requires |vs| > 0 && |drs| > 0 && i < |rs|
    requires plan == PlanOf(batch, rs[..i], vs, drs, ds, firstId) && id == firstId + |plan.routes|
    ensures PlanOf(batch, rs[..i + 1], vs, drs, ds, firstId)
            == if rs[i].stops == [] then plan
               else Plan(plan.routes + [NewRoute(id, batch, vs[i % |vs|].id, drs[i % |drs|].id, i + 1,
                                                 rs[i].distance, rs[i].duration)],
                         plan.assignments + RouteAssignments(id, rs[i].stops, ds))
  {
    assert rs[..i + 1][..i] == rs[..i] && rs[..i + 1][i] == rs[i];
  }

  /** How the totals for the first `i + 1` solver routes extend those for the first `i`. */
  lemma TotalsPrefixStep(rs: seq<CmdRoute>, i: nat)
    requires i < |rs|
    ensures TotalDistance(rs[..i + 1]) == TotalDistance(rs[..i]) + (if rs[i].stops != [] then rs[i].distance else 0.0)
    ensures TotalDuration(rs[..i + 1]) == TotalDuration(rs[..i]) + (if rs[i].stops != [] then rs[i].duration else 0)
  {
    assert rs[..i + 1][..i] == rs[..i] && rs[..i + 1][i] == rs[i];
  }

  /** Create the record for solver route `i`, which has stops, and assign its deliveries. */
  method WriteRoute(db: Database, batch: Id, rs: seq<CmdRoute>, vs: seq<Vehicle>, drs: seq<Driver>,
                    ds: seq<Delivery>, i: nat, ghost id: Id, ghost routesBefore: seq<Route>,
                    ghost deliveriesBefore: seq<Delivery>)
    returns (added: seq<Assignment>)
    requires db.Valid() && |vs| > 0 && |drs| > 0 && i < |rs|
    requires id == db.nextId && routesBefore == db.routes && deliveriesBefore == db.deliveries
    modifies db`routes, db`nextId, db`deliveries
    ensures db.Valid()
    ensures db.routes == routesBefore + [NewRoute(id, batch, vs[i % |vs|].id, drs[i % |drs|].id, i + 1,
                                                  rs[i].distance, rs[i].duration)]
    ensures db.nextId == id + 1
    ensures added == RouteAssignments(id, rs[i].stops, ds)
    ensures db.deliveries == MarkAssigned(deliveriesBefore, AssignedIds(added))
  {
    var route := NewRoute(0, batch, vs[i % |vs|].id, drs[i % |drs|].id, i + 1, rs[i].distance, rs[i].duration);
    var routeId := db.CreateRoute(route);
    added := WriteAssignments(db, routeId, rs[i].stops, ds);
  }

  /** Create the routes of a solution and assign their deliveries, summing
      the totals of the routes with stops. */
  method WriteRoutes(db: Database, batch: Id, rs: seq<CmdRoute>, vs: seq<Vehicle>, drs: seq<Driver>,
                     ds: seq<Delivery>)
    returns (assigns: seq<Assignment>, totalDistance: real, totalDuration: int)
    requires db.Valid() && |vs| > 0 && |drs| > 0
    modifies db`routes, db`nextId, db`deliveries
    ensures db.Valid()
    ensures var p := PlanOf(batch, rs, vs, drs, ds, old(db.nextId));
            && db.routes == old(db.routes) + p.routes
            && assigns == p.assignments
            && db.deliveries == MarkAssigned(old(db.deliveries), AssignedIds(assigns))
    ensures totalDistance == TotalDistance(rs) && totalDuration == TotalDuration(rs)
  {
    ghost var firstId := db.nextId;
    ghost var oldRoutes := db.routes;
    ghost var before := db.deliveries;
    assigns, totalDistance, totalDuration := [], 0.0, 0;
    assert rs[..0] == [];
    ghost var plan := PlanOf(batch, rs[..0], vs, drs, ds, firstId);
    for i := 0 to |rs|
      invariant db.Valid()
      invariant plan == PlanOf(batch, rs[..i], vs, drs, ds, firstId)
      invariant db.routes == oldRoutes + plan.routes
      invariant db.nextId == firstId + |plan.routes|
      invariant assigns == plan.assignments
      invariant db.deliveries == MarkAssigned(before, AssignedIds(assigns))
      invariant totalDistance == TotalDistance(rs[..i]) && totalDuration == TotalDuration(rs[..i])
    {
      PlanPrefixStep(batch, rs, vs, drs, ds, firstId, i, plan, db.nextId);
      TotalsPrefixStep(rs, i);
      if rs[i].stops != [] {
        ghost var route := NewRoute(db.nextId, batch, vs[i % |vs|].id, drs[i % |drs|].id, i + 1,
                                    rs[i].distance, rs[i].duration);
        var added := WriteRoute(db, batch, rs, vs, drs, ds, i, db.nextId, db.routes, db.deliveries);
        MarkAssignedTwice(before, AssignedIds(assigns), AssignedIds(added));
        assert AssignedIds(assigns + added) == AssignedIds(assigns) + AssignedIds(added);
        assigns := assigns + added;
        totalDistance := totalDistance + rs[i].distance;
        totalDuration := totalDuration + rs[i].duration;
        plan := Plan(plan.routes + [route], plan.assignments + added);
      }
    }
    assert rs[..|rs|] == rs;
  }

  /** Process one selected batch, the one at position `i` of the store. A
      batch that fails a check, whose solver stage raises or finds no
      routes is left as it was. Otherwise its old routes go (with their
      stops and location updates), the planned routes are created, the
      visited deliveries become `assigned` and the batch becomes `ready`
      with its totals. */
  method OptimizeOne(db: Database, i: nat, now: int,
                     buildMatrix: seq<Coord> -> Computed<Matrix>,
                     solve: (Matrix, nat, int) -> Solution)
    returns (report: BatchReport, assigns: seq<Assignment>)
    requires db.Valid() && i < |db.batches|
    modifies db`batches, db`routes, db`nextId, db`stops, db`locationUpdates, db`deliveries
    ensures db.Valid()
    ensures var b := old(db.batches)[i];
            var vs := ActiveVehicles(old(db.vehicles), b.owner);
            var drs := ActiveDrivers(old(db.drivers), b.owner);
            var ds := DeliveriesOf(old(db.deliveries), b.id);
            report == Decide(b, vs, drs, ds, buildMatrix, solve)
    ensures !report.Optimized? ==> assigns == [] && unchanged(db)
    ensures report.Optimized? ==>
              var b := old(db.batches)[i];
              var vs := ActiveVehicles(old(db.vehicles), b.owner);
              var drs := ActiveDrivers(old(db.drivers), b.owner);
              var ds := DeliveriesOf(old(db.deliveries), b.id);
              var rs := SolveStage(b, vs, drs, ds, buildMatrix, solve).routes;
              var p := PlanOf(b.id, rs, vs, drs, ds, old(db.nextId));
              && db.routes == Filter(RouteOutside({b.id}), old(db.routes)) + p.routes
              && db.stops == Filter(StopOff(RouteIdsOf(old(db.routes), {b.id}), {}), old(db.stops))
              && db.locationUpdates == Filter(UpdateOff(RouteIdsOf(old(db.routes), {b.id})), old(db.locationUpdates))
              && assigns == p.assignments
              && db.deliveries == MarkAssigned(old(db.deliveries), AssignedIds(assigns))
              && db.batches == old(db.batches)[i := b.(status := Ready,
                                                         totalDistanceKm := Some(TotalDistance(rs)),
                                                         estimatedDurationMinutes := Some(TotalDuration(rs)),
                                                         updatedAt := now)]
  {
    var b := db.batches[i];
    var vs := ActiveVehicles(db.vehicles, b.owner);
    var drs := ActiveDrivers(db.drivers, b.owner);
    var ds := DeliveriesOf(db.deliveries, b.id);
    report := Decide(b, vs, drs, ds, buildMatrix, solve);
    assigns := [];
    if !report.Optimized? {
      return;
    }
    var rs := SolveStage(b, vs, drs, ds, buildMatrix, solve).routes;
    db.DeleteRoutes({b.id});
    var totalDistance, totalDuration;
    assigns, totalDistance, totalDuration := WriteRoutes(db, b.id, rs, vs, drs, ds);
    db.SaveBatch(i, b.(status := Ready, totalDistanceKm := Some(totalDistance),
                       estimatedDurationMinutes := Some(totalDuration), updatedAt := now));
  }

  /** A batch record that was in the store is still found by its key while
      the run keeps every batch's key. */
  lemma StillStored(before: seq<DeliveryBatch>, now: seq<DeliveryBatch>, b: DeliveryBatch)
    requires b in before && |now| == |before|
    requires forall m :: 0 <= m < |now| ==> now[m].id == before[m].id
    ensures IndexOfBatch(now, b.id).Some?
  {
    var m :| 0 <= m < |before| && before[m] == b;
    assert now[m].id == b.id;
  }

  /** The whole run. Nothing is processed when the selection is empty; else
      every selected batch is processed in store order and gets one report. */
  method OptimizeRoutes(db: Database, batchId: Option<Id>, force: bool, now: int,
                        buildMatrix: seq<Coord> -> Computed<Matrix>,
                        solve: (Matrix, nat, int) -> Solution)
    returns (report: CommandReport)
    requires db.Valid()
    modifies db`batches, db`routes, db`nextId, db`stops, db`locationUpdates, db`deliveries
    ensures db.Valid()
    ensures var selected := SelectBatches(old(db.batches), batchId, force);
            && (selected == [] && batchId.Some? <==> report == NoBatchFound)
            && (selected == [] && batchId.None? <==> report == NoBatchesToOptimize)
            && (selected != [] <==> report.Processed?)
            && (report.Processed? ==> |report.reports| == |selected|)
    ensures report.Processed? || unchanged(db)
    ensures |db.batches| == |old(db.batches)|
    ensures forall k :: 0 <= k < |db.batches| ==> db.batches[k].id == old(db.batches)[k].id
  {
    var selected := SelectBatches(db.batches, batchId, force);
    if selected == [] {
      return if batchId.Some? then NoBatchFound else NoBatchesToOptimize;
    }
    ghost var before := db.batches;
    var reports := [];
    for k := 0 to |selected|
      invariant db.Valid()
      invariant |reports| == k
      invariant |db.batches| == |before|
      invariant forall m :: 0 <= m < |db.batches| ==> db.batches[m].id == before[m].id
    {
      StillStored(before, db.batches, selected[k]);
      var found := IndexOfBatch(db.batches, selected[k].id);
      var one, written := OptimizeOne(db, found.value, now, buildMatrix, solve);
      reports := reports + [one];
    }
    report := Processed(reports);
  }
}
