/** The asynchronous optimization job for one batch: mark it optimizing,
    build the location list and the matrices, run the solver, persist one
    route per solver route with its interior stops, and finish in `ready`
    or `failed`. Nothing here runs in a transaction: routes and stops
    written before an error stay written. */
module OptimizeTask {
  import opened Support
  import opened Models
  import opened Locations
  import opened Store

  /** One route of a solver result: location indices that begin and end at
      the depot, total distance in metres and total time in seconds. */
  datatype RouteData = RouteData(stops: seq<int>, totalDistance: int, totalTime: int)

  /** What the solver hands back: it raised, returned something falsy, or
      returned a result. */
  datatype SolverResult =
    | SolverThrew
    | NoResult
    | Solved(routes: seq<RouteData>, totalDistance: int, totalTime: int)

  /** How the job ends: its return value, or an exception that escapes it. */
  datatype TaskReturn = ReturnedTrue | ReturnedFalse | TaskRaised

  /** The job asks the solver for this many vehicles whatever the fleet is. */
  const SolverVehicles: nat := 2

  /** Metres to kilometres (`/ 1000`). */
  function Km(metres: int): (km: real)
    ensures km * 1000.0 == metres as real
  {
    metres as real / 1000.0
  }

  /** Seconds to whole minutes (`// 60`, rounding down). */
  function Minutes(seconds: int): (m: int)
    ensures 60 * m <= seconds < 60 * m + 60
  {
    seconds / 60
  }

  /** The time matrix derived from the distance matrix: same shape, each
      cell the distance divided by 50 and rounded down. */
  function TimeMatrix(dm: Matrix): (tm: Matrix)
    ensures |tm| == |dm|
    ensures forall i :: 0 <= i < |dm| ==> |tm[i]| == |dm[i]|
    ensures forall i, j :: 0 <= i < |dm| && 0 <= j < |dm[i]| ==> 50 * tm[i][j] <= dm[i][j] < 50 * tm[i][j] + 50
  {
    seq(|dm|, i requires 0 <= i < |dm| => seq(|dm[i]|, j requires 0 <= j < |dm[i]| => dm[i][j] / 50))
  }

  /** `owner.vehicles.first()` and `owner.drivers.first()`: the key of the
      owner's record with the least primary key (the order `first()` uses
      on a model without a declared ordering), active or not. */
  function FirstOwned<T>(xs: seq<T>, ownerOf: T -> Id, idOf: T -> Id, owner: Id): (r: Option<Id>)
    ensures r.Some? <==> exists k :: 0 <= k < |xs| && ownerOf(xs[k]) == owner
    ensures r.Some? ==> exists k :: 0 <= k < |xs| && ownerOf(xs[k]) == owner && idOf(xs[k]) == r.value
    ensures r.Some? ==> forall k :: 0 <= k < |xs| && ownerOf(xs[k]) == owner ==> r.value <= idOf(xs[k])
  {
    if xs == [] then None
    else
      var rest := FirstOwned(xs[1..], ownerOf, idOf, owner);
      assert forall k :: 1 <= k < |xs| ==> xs[k] == xs[1..][k - 1];
      if ownerOf(xs[0]) != owner then
        assert rest.Some? ==> exists k :: 0 <= k < |xs| && ownerOf(xs[k]) == owner && idOf(xs[k]) == rest.value by {
          if rest.Some? {
            var k :| 0 <= k < |xs| - 1 && ownerOf(xs[1..][k]) == owner && idOf(xs[1..][k]) == rest.value;
            assert xs[k + 1] == xs[1..][k];
          }
        }
        rest
      else if rest.Some? && rest.value < idOf(xs[0]) then
        assert exists k :: 0 <= k < |xs| && ownerOf(xs[k]) == owner && idOf(xs[k]) == rest.value by {
          var k :| 0 <= k < |xs| - 1 && ownerOf(xs[1..][k]) == owner && idOf(xs[1..][k]) == rest.value;
          assert xs[k + 1] == xs[1..][k];
        }
        rest
      else
        Some(idOf(xs[0]))
  }

  function VehicleOwner(v: Vehicle): Id { v.owner }
  function VehicleKey(v: Vehicle): Id { v.id }
  function DriverOwner(d: Driver): Id { d.owner }
  function DriverKey(d: Driver): Id { d.id }

  /** What the solver stage yields for a batch, with every exception raised
      on the way (no depot coordinates, a failing matrix builder, a failing
      solver) reported as `SolverThrew`. */
  function SolverStage(depot: Option<Coord>, ds: seq<Delivery>,
                       buildMatrix: seq<Coord> -> Computed<Matrix>,
                       solve: (Matrix, Matrix, nat) -> SolverResult): SolverResult
  {
    match depot
    case None => SolverThrew
    case Some(c) =>
      match buildMatrix([c] + LocatedCoords(ds))
      case Threw => SolverThrew
      case Value(dm) => solve(dm, TimeMatrix(dm), SolverVehicles)
  }

  /** The route record written for solver route `k`. */
  function PlannedRoute(batch: Id, k: nat, rd: RouteData, vehicle: Id, driver: Id, id: Id): Route
  {
    NewRoute(id, batch, vehicle, driver, k + 1, Km(rd.totalDistance), Minutes(rd.totalTime))
  }

  /** The route records written for a whole result, keys handed out from `firstId`. */
  function PlannedRoutes(batch: Id, rs: seq<RouteData>, vehicle: Id, driver: Id, firstId: nat): (r: seq<Route>)
    ensures |r| == |rs|
    ensures forall k :: 0 <= k < |rs| ==> r[k] == PlannedRoute(batch, k, rs[k], vehicle, driver, firstId + k)
  {
    seq(|rs|, k requires 0 <= k < |rs| => PlannedRoute(batch, k, rs[k], vehicle, driver, firstId + k))
  }

  /** The stops written for one route: each interior location index, in
      order, resolved as `deliveries[k - 1]` over all of the batch's
      deliveries and used as the stop order; None when an index is out of
      range (the `IndexError` the job catches). */
  function RouteStops(routeId: Id, idxs: seq<int>, ds: seq<Delivery>): Option<seq<Stop>>
  {
    if idxs == [] then Some([])
    else
      match RouteStops(routeId, idxs[..|idxs| - 1], ds)
      case None => None
      case Some(prefix) =>
        match DeliveryAtAsWritten(ds, idxs[|idxs| - 1])
        case None => None
        case Some(d) => Some(prefix + [NewStop(routeId, d.id, idxs[|idxs| - 1])])
  }

  /** The stops of a route are one per interior index, in order, each on
      the delivery `deliveries[k - 1]` with `k` as its order; they exist
      exactly when every index is in range. */
  lemma {:induction false} RouteStopsResolve(routeId: Id, idxs: seq<int>, ds: seq<Delivery>)
    ensures RouteStops(routeId, idxs, ds).Some? <==>
              forall k :: 0 <= k < |idxs| ==> DeliveryAtAsWritten(ds, idxs[k]).Some?
    ensures RouteStops(routeId, idxs, ds).Some? ==>
              && |RouteStops(routeId, idxs, ds).value| == |idxs|
              && forall k :: 0 <= k < |idxs| ==>
                   RouteStops(routeId, idxs, ds).value[k]
                   == NewStop(routeId, DeliveryAtAsWritten(ds, idxs[k]).value.id, idxs[k])
  {
    if idxs != [] {
      var init := idxs[..|idxs| - 1];
      RouteStopsResolve(routeId, init, ds);
      assert forall k :: 0 <= k < |init| ==> init[k] == idxs[k];
    }
  }

  /** The stops written for a whole result, route `k` having key `firstId + k`. */
  function PlannedStops(rs: seq<RouteData>, ds: seq<Delivery>, firstId: nat): Option<seq<Stop>>
  {
    if rs == [] then Some([])
    else
      match PlannedStops(rs[..|rs| - 1], ds, firstId)
      case None => None
      case Some(prefix) =>
        match RouteStops(firstId + |rs| - 1, PyTrimEnds(rs[|rs| - 1].stops), ds)
        case None => None
        case Some(last) => Some(prefix + last)
  }

  /** Persisting a result goes through exactly when a vehicle and a driver
      exist (or there is nothing to write), every interior index resolves,
      and no delivery ends up with two stops. */
  ghost predicate PersistSucceeds(oldStops: seq<Stop>, rs: seq<RouteData>, ds: seq<Delivery>,
                                  vehicle: Option<Id>, driver: Option<Id>, firstId: nat)
  {
    && (rs != [] ==> vehicle.Some? && driver.Some?)
    && PlannedStops(rs, ds, firstId).Some?
    && StopsOneToOne(oldStops + PlannedStops(rs, ds, firstId).value)
  }

  lemma {:induction false} RouteStopsPrefix(routeId: Id, idxs: seq<int>, ds: seq<Delivery>, j: nat)
    requires j <= |idxs|
    requires RouteStops(routeId, idxs, ds).Some?
    ensures RouteStops(routeId, idxs[..j], ds).Some?
    ensures RouteStops(routeId, idxs[..j], ds).value <= RouteStops(routeId, idxs, ds).value
    decreases |idxs|
  {
    if j < |idxs| {
      var init := idxs[..|idxs| - 1];
      assert init[..j] == idxs[..j];
      RouteStopsPrefix(routeId, init, ds, j);
    } else {
      assert idxs[..j] == idxs;
    }
  }

  lemma {:induction false} PlannedStopsPrefix(rs: seq<RouteData>, ds: seq<Delivery>, firstId: nat, k: nat)
    requires k <= |rs|
    requires PlannedStops(rs, ds, firstId).Some?
    ensures PlannedStops(rs[..k], ds, firstId).Some?
    ensures PlannedStops(rs[..k], ds, firstId).value <= PlannedStops(rs, ds, firstId).value
    decreases |rs|
  {
    if k < |rs| {
      var init := rs[..|rs| - 1];
      assert init[..k] == rs[..k];
      PlannedStopsPrefix(init, ds, firstId, k);
    } else {
      assert rs[..k] == rs;
    }
  }

  lemma DistinctPrefix<T, U>(key: T -> U, a: seq<T>, b: seq<T>)
    requires a <= b && DistinctBy(key, b)
    ensures DistinctBy(key, a)
  {
    forall i, j | 0 <= i < j < |a| ensures key(a[i]) != key(a[j]) {
      assert a[i] == b[i] && a[j] == b[j];
    }
  }

  /** A stop whose delivery already has a stop breaks one-to-one-ness of any
      continuation. */
  lemma DuplicateBreaksOneToOne(cur: seq<Stop>, s: Stop, full: seq<Stop>)
    requires HasStopFor(cur, s.delivery) && cur + [s] <= full
    ensures !StopsOneToOne(full)
  {
    var i :| 0 <= i < |cur| && cur[i].delivery == s.delivery;
    assert full[i] == cur[i] && full[|cur|] == s;
    assert StopDelivery(full[i]) == StopDelivery(full[|cur|]);
  }

  /** How the planned stops of the first `k + 1` routes extend those of the first `k`. */
  lemma PlannedStopsStep(rs: seq<RouteData>, ds: seq<Delivery>, firstId: nat, k: nat)
    requires k < |rs|
    ensures PlannedStops(rs[..k + 1], ds, firstId)
            == match PlannedStops(rs[..k], ds, firstId)
               case None => None
               case Some(prefix) =>
                 match RouteStops(firstId + k, PyTrimEnds(rs[k].stops), ds)
                 case None => None
                 case Some(last) => Some(prefix + last)
  {
    assert rs[..k + 1][..k] == rs[..k] && rs[..k + 1][k] == rs[k];
  }

  /** How the stops for the first `j + 1` interior indices extend those for the first `j`. */
  lemma RouteStopsStep(routeId: Id, idxs: seq<int>, ds: seq<Delivery>, j: nat)
    requires j < |idxs|
    ensures RouteStops(routeId, idxs[..j + 1], ds)
            == match RouteStops(routeId, idxs[..j], ds)
               case None => None
               case Some(prefix) =>
                 match DeliveryAtAsWritten(ds, idxs[j])
                 case None => None
                 case Some(d) => Some(prefix + [NewStop(routeId, d.id, idxs[j])])
  {
    assert idxs[..j + 1][..j] == idxs[..j];
  }

  /** Stops written after `start` that lead into `last` keep `cur + [s]`
      a prefix of `start + last`. */
  lemma PrefixChain<T>(start: seq<T>, cur: seq<T>, s: T, last: seq<T>)
    requires start <= cur
    requires cur[|start|..] + [s] <= last
    ensures cur + [s] <= start + last
  {
    forall i | 0 <= i < |cur| + 1 ensures (cur + [s])[i] == (start + last)[i] {
      if i >= |start| {
        assert last[i - |start|] == (cur[|start|..] + [s])[i - |start|];
      }
    }
  }

  lemma NotOneToOneExtended(a: seq<Stop>, b: seq<Stop>)
    requires a <= b && !StopsOneToOne(a)
    ensures !StopsOneToOne(b)
  {
    if StopsOneToOne(b) {
      DistinctPrefix(StopDelivery, a, b);
    }
  }

  lemma RouteStopsResolved(routeId: Id, idxs: seq<int>, ds: seq<Delivery>, j: nat)
    requires j <= |idxs|
    ensures RouteStops(routeId, idxs, ds).Some? ==>
              && RouteStops(routeId, idxs[..j], ds).Some?
              && RouteStops(routeId, idxs[..j], ds).value <= RouteStops(routeId, idxs, ds).value
  {
    if RouteStops(routeId, idxs, ds).Some? {
      RouteStopsPrefix(routeId, idxs, ds, j);
    }
  }

  lemma PlannedStopsResolved(rs: seq<RouteData>, ds: seq<Delivery>, firstId: nat, k: nat)
    requires k <= |rs|
    ensures PlannedStops(rs, ds, firstId).Some? ==>
              && PlannedStops(rs[..k], ds, firstId).Some?
              && PlannedStops(rs[..k], ds, firstId).value <= PlannedStops(rs, ds, firstId).value
  {
    if PlannedStops(rs, ds, firstId).Some? {
      PlannedStopsPrefix(rs, ds, firstId, k);
    }
  }

  lemma PrefixTransfer<T>(x: seq<T>, a: seq<T>, b: seq<T>)
    requires a <= b
    ensures x + a <= x + b
  {
    assert (x + b)[..|x + a|] == x + b[..|a|];
  }

  /** Write the interior stops of one route, stopping at the first index
      that does not resolve or the first delivery that already has a stop. */
  method PersistStops(db: Database, routeId: Id, idxs: seq<int>, ds: seq<Delivery>) returns (ok: bool)
    requires db.Valid()
    modifies db`stops
    ensures db.Valid()
    ensures ok <==> RouteStops(routeId, idxs, ds).Some?
                    && StopsOneToOne(old(db.stops) + RouteStops(routeId, idxs, ds).value)
    ensures ok ==> db.stops == old(db.stops) + RouteStops(routeId, idxs, ds).value
    ensures old(db.stops) <= db.stops
  {
    ghost var start := db.stops;
    var j := 0;
    assert idxs[..0] == [] && db.stops[|start|..] == [];
    while j < |idxs|
      invariant 0 <= j <= |idxs|
      invariant db.Valid()
      invariant start <= db.stops
      invariant RouteStops(routeId, idxs[..j], ds) == Some(db.stops[|start|..])
    {
      RouteStopsStep(routeId, idxs, ds, j);
      var delivery := DeliveryAtAsWritten(ds, idxs[j]);
      if delivery.None? {
        RouteStopsResolved(routeId, idxs, ds, j + 1);
        return false;
      }
      var s := NewStop(routeId, delivery.value.id, idxs[j]);
      ghost var cur := db.stops;
      assert RouteStops(routeId, idxs[..j + 1], ds) == Some(cur[|start|..] + [s]);
      var created := db.CreateStop(s);
      if !created {
        RouteStopsResolved(routeId, idxs, ds, j + 1);
        if RouteStops(routeId, idxs, ds).Some? {
          var last := RouteStops(routeId, idxs, ds).value;
          PrefixChain(start, cur, s, last);
          DuplicateBreaksOneToOne(cur, s, start + last);
        }
        return false;
      }
      assert db.stops[|start|..] == cur[|start|..] + [s];
      j := j + 1;
    }
    assert idxs[..j] == idxs;
    assert db.stops == start + db.stops[|start|..];
    ok := true;
  }

  /** Route `k`'s stops failing to resolve or to be one-to-one after the
      stops written so far makes the whole result fail. */
  lemma RouteFailureBreaks(oldStops: seq<Stop>, written: seq<Stop>, start: seq<Stop>, rs: seq<RouteData>,
                           ds: seq<Delivery>, firstId: nat, k: nat, last: Option<seq<Stop>>,
                           vehicle: Option<Id>, driver: Option<Id>)
    requires k < |rs| && start == oldStops + written
    requires PlannedStops(rs[..k], ds, firstId) == Some(written)
    requires last == RouteStops(firstId + k, PyTrimEnds(rs[k].stops), ds)
    requires !(last.Some? && StopsOneToOne(start + last.value))
    ensures !PersistSucceeds(oldStops, rs, ds, vehicle, driver, firstId)
  {
    if PlannedStops(rs, ds, firstId).Some? {
      PlannedExtends(rs, ds, firstId, k, written, last);
      BrokenPrefixStaysBroken(oldStops, written, start, last.value, PlannedStops(rs, ds, firstId).value);
    }
  }

  /** A resolved result's planned stops begin with those of its first `k`
      routes followed by those of route `k`. */
  lemma PlannedExtends(rs: seq<RouteData>, ds: seq<Delivery>, firstId: nat, k: nat,
                       written: seq<Stop>, last: Option<seq<Stop>>)
    requires k < |rs|
    requires PlannedStops(rs[..k], ds, firstId) == Some(written)
    requires last == RouteStops(firstId + k, PyTrimEnds(rs[k].stops), ds)
    requires PlannedStops(rs, ds, firstId).Some?
    ensures last.Some? && written + last.value <= PlannedStops(rs, ds, firstId).value
  {
    PlannedStopsStep(rs, ds, firstId, k);
    PlannedStopsResolved(rs, ds, firstId, k + 1);
  }

  lemma BrokenPrefixStaysBroken(oldStops: seq<Stop>, written: seq<Stop>, start: seq<Stop>,
                                last: seq<Stop>, full: seq<Stop>)
    requires start == oldStops + written && written + last <= full
    requires !StopsOneToOne(start + last)
    ensures !StopsOneToOne(oldStops + full)
  {
    assert start + last == oldStops + (written + last);
    PrefixTransfer(oldStops, written + last, full);
    NotOneToOneExtended(start + last, oldStops + full);
  }

  /** Write solver route `k`: its route record under the next key, then its
      interior stops. */
  method PersistRoute(db: Database, batch: Id, k: nat, rd: RouteData, ds: seq<Delivery>, v: Id, d: Id,
                      ghost id: Id, ghost before: seq<Stop>, ghost routesBefore: seq<Route>,
                      ghost planned: Option<seq<Stop>>)
    returns (ok: bool)
    requires db.Valid() && id == db.nextId && before == db.stops && routesBefore == db.routes
    requires planned == RouteStops(id, PyTrimEnds(rd.stops), ds)
    modifies db`routes, db`nextId, db`stops
    ensures db.Valid()
    ensures db.routes == routesBefore + [PlannedRoute(batch, k, rd, v, d, id)]
    ensures db.nextId == id + 1
    ensures ok <==> planned.Some? && StopsOneToOne(before + planned.value)
    ensures ok ==> planned.Some? && db.stops == before + planned.value
    ensures before <= db.stops
  {
    var routeId := db.CreateRoute(PlannedRoute(batch, k, rd, v, d, 0));
    ok := PersistStops(db, routeId, PyTrimEnds(rd.stops), ds);
  }

  lemma PrefixTrans<T>(a: seq<T>, b: seq<T>, c: seq<T>)
    requires a <= b <= c
    ensures a <= c
  {
  }

  lemma AppendAssoc<T>(a: seq<T>, b: seq<T>, c: seq<T>)
    ensures (a + b) + c == a + (b + c)
  {
  }

  lemma PlannedRoutesStep(batch: Id, rs: seq<RouteData>, v: Id, d: Id, firstId: nat, k: nat)
    requires k < |rs|
    ensures PlannedRoutes(batch, rs[..k + 1], v, d, firstId)
            == PlannedRoutes(batch, rs[..k], v, d, firstId) + [PlannedRoute(batch, k, rs[k], v, d, firstId + k)]
  {
    assert rs[..k + 1][k] == rs[k];
    assert forall m :: 0 <= m < k ==> rs[..k + 1][m] == rs[..k][m];
  }

  /** One turn of the loop of `PersistRoutes`: the route at position `k`
      and its stops, with the running totals the loop keeps. */
  method PersistNext(db: Database, batch: Id, rs: seq<RouteData>, ds: seq<Delivery>, v: Id, d: Id, k: nat,
                     ghost firstId: nat, ghost oldStops: seq<Stop>, ghost oldRoutes: seq<Route>,
                     ghost written: seq<Stop>, ghost made: seq<Route>,
                     ghost vehicle: Option<Id>, ghost driver: Option<Id>)
    returns (stored: bool, ghost written': seq<Stop>, ghost made': seq<Route>)
    requires db.Valid() && k < |rs| && db.nextId == firstId + k
    requires db.routes == oldRoutes + made && made == PlannedRoutes(batch, rs[..k], v, d, firstId)
    requires db.stops == oldStops + written && PlannedStops(rs[..k], ds, firstId) == Some(written)
    modifies db`routes, db`nextId, db`stops
    ensures db.Valid() && db.nextId == firstId + k + 1
    ensures db.routes == oldRoutes + made' && made' == PlannedRoutes(batch, rs[..k + 1], v, d, firstId)
    ensures stored ==> db.stops == oldStops + written' && PlannedStops(rs[..k + 1], ds, firstId) == Some(written')
    ensures !stored ==> !PersistSucceeds(oldStops, rs, ds, vehicle, driver, firstId) && oldStops <= db.stops
  {
    ghost var last := RouteStops(firstId + k, PyTrimEnds(rs[k].stops), ds);
    ghost var start := db.stops;
    ghost var route := PlannedRoute(batch, k, rs[k], v, d, firstId + k);
    PlannedRoutesStep(batch, rs, v, d, firstId, k);
    AppendAssoc(oldRoutes, made, [route]);
    stored := PersistRoute(db, batch, k, rs[k], ds, v, d, firstId + k, start, db.routes, last);
    made' := made + [route];
    written' := written;
    if !stored {
      RouteFailureBreaks(oldStops, written, start, rs, ds, firstId, k, last, vehicle, driver);
      PrefixTrans(oldStops, start, db.stops);
      return;
    }
    PlannedStopsStep(rs, ds, firstId, k);
    AppendAssoc(oldStops, written, last.value);
    written' := written + last.value;
  }

  /** Write the routes and stops of a solver result, stopping at the first
      error. On success exactly the planned records were appended; on
      failure the records written before the error remain. */
  method PersistRoutes(db: Database, batch: Id, rs: seq<RouteData>, ds: seq<Delivery>,
                       vehicle: Option<Id>, driver: Option<Id>) returns (ok: bool)
    requires db.Valid()
    modifies db`routes, db`nextId, db`stops
    ensures db.Valid()
    ensures ok <==> PersistSucceeds(old(db.stops), rs, ds, vehicle, driver, old(db.nextId))
    ensures ok ==> db.routes == old(db.routes) + PlannedRoutes(batch, rs, vehicle.GetOr(0), driver.GetOr(0), old(db.nextId))
    ensures ok ==> db.stops == old(db.stops) + PlannedStops(rs, ds, old(db.nextId)).value
    ensures old(db.routes) <= db.routes && old(db.stops) <= db.stops
  {
    ghost var firstId := db.nextId;
    ghost var oldStops := db.stops;
    ghost var oldRoutes := db.routes;
    ghost var written: seq<Stop> := [];
    ghost var made: seq<Route> := [];
    var v, d := vehicle.GetOr(0), driver.GetOr(0);
    var k := 0;
    assert rs[..0] == [] && db.stops == oldStops + written && db.routes == oldRoutes + made;
    while k < |rs|
      invariant 0 <= k <= |rs|
      invariant db.Valid()
      invariant db.nextId == firstId + k
      invariant k > 0 ==> vehicle.Some? && driver.Some?
      invariant db.routes == oldRoutes + made
      invariant made == PlannedRoutes(batch, rs[..k], v, d, firstId)
      invariant db.stops == oldStops + written
      invariant PlannedStops(rs[..k], ds, firstId) == Some(written)
    {
      if vehicle.None? || driver.None? {
        return false;
      }
      var stored;
      stored, written, made := PersistNext(db, batch, rs, ds, v, d, k, firstId, oldStops, oldRoutes,
                                           written, made, vehicle, driver);
      if !stored {
        return false;
      }
      k := k + 1;
    }
    assert rs[..k] == rs;
    ok := true;
  }

  /** The batch as the job leaves it: `ready` with the result's totals
      when a result was obtained and persisted, `failed` otherwise (the
      totals then keep their previous values). Either way it was saved,
      so its modification time is the job's clock. */
  function FinalBatch(b: DeliveryBatch, res: SolverResult, persisted: bool, now: int): (r: DeliveryBatch)
    ensures r.status == Ready <==> res.Solved? && persisted
    ensures r.status != Ready ==> r.status == Failed
    ensures res.Solved? && persisted ==>
              && r.totalDistanceKm == Some(Km(res.totalDistance))
              && r.estimatedDurationMinutes == Some(Minutes(res.totalTime))
    ensures !(res.Solved? && persisted) ==>
              r.totalDistanceKm == b.totalDistanceKm && r.estimatedDurationMinutes == b.estimatedDurationMinutes
    ensures r == b.(status := r.status, totalDistanceKm := r.totalDistanceKm,
                    estimatedDurationMinutes := r.estimatedDurationMinutes, updatedAt := now)
  {
    if res.Solved? && persisted then
      b.(status := Ready, totalDistanceKm := Some(Km(res.totalDistance)),
         estimatedDurationMinutes := Some(Minutes(res.totalTime)), updatedAt := now)
    else
      b.(status := Failed, updatedAt := now)
  }

  /** What the job returns: True when it finished normally, including the
      case where the solver found nothing; False when an exception was
      caught (unresolvable location, vehicle or driver missing, duplicate stop,
      solver or matrix failure). */
  function TaskResult(res: SolverResult, persisted: bool): (ret: TaskReturn)
    ensures ret == ReturnedTrue <==> res.NoResult? || (res.Solved? && persisted)
    ensures ret != ReturnedTrue ==> ret == ReturnedFalse
  {
    match res
    case NoResult => ReturnedTrue
    case SolverThrew => ReturnedFalse
    case Solved(_, _, _) => if persisted then ReturnedTrue else ReturnedFalse
  }

  /** The asynchronous job. The batch is saved as `optimizing` first and then
      once more with its final status; `saves` lists the statuses written.
      A batch id that does not exist makes the exception handler itself fail
      (it refers to a batch that was never loaded), so the job raises and
      writes nothing. */
  method OptimizeBatchTask(db: Database, batchId: Id, now: int,
                           buildMatrix: seq<Coord> -> Computed<Matrix>,
                           solve: (Matrix, Matrix, nat) -> SolverResult)
    returns (ret: TaskReturn, saves: seq<BatchStatus>)
    requires db.Valid()
    modifies db`batches, db`routes, db`nextId, db`stops
    ensures db.Valid()
    ensures IndexOfBatch(old(db.batches), batchId).None? ==>
              && ret == TaskRaised && saves == []
              && db.batches == old(db.batches) && db.routes == old(db.routes) && db.stops == old(db.stops)
    ensures IndexOfBatch(old(db.batches), batchId).Some? ==>
              var i := IndexOfBatch(old(db.batches), batchId).value;
              var b := old(db.batches)[i];
              var ds := DeliveriesOf(old(db.deliveries), batchId);
              var res := SolverStage(b.depot, ds, buildMatrix, solve);
              var persisted := res.Solved? &&
                PersistSucceeds(old(db.stops), res.routes, ds, FirstOwned(old(db.vehicles), VehicleOwner, VehicleKey, b.owner),
                                FirstOwned(old(db.drivers), DriverOwner, DriverKey, b.owner), old(db.nextId));
              && ret == TaskResult(res, persisted)
              && db.batches == old(db.batches)[i := FinalBatch(b, res, persisted, now)]
              && saves == [Optimizing, db.batches[i].status]
              && (!res.Solved? ==> db.routes == old(db.routes) && db.stops == old(db.stops))
              && (persisted ==>
                    && db.routes == old(db.routes) + PlannedRoutes(batchId, res.routes,
                         FirstOwned(old(db.vehicles), VehicleOwner, VehicleKey, b.owner).GetOr(0),
                         FirstOwned(old(db.drivers), DriverOwner, DriverKey, b.owner).GetOr(0), old(db.nextId))
                    && db.stops == old(db.stops) + PlannedStops(res.routes, ds, old(db.nextId)).value)
              && old(db.routes) <= db.routes && old(db.stops) <= db.stops
  {
    var found := IndexOfBatch(db.batches, batchId);
    if found.None? {
      return TaskRaised, [];
    }
    var i := found.value;
    var b := db.batches[i];
    db.SaveBatch(i, b.(status := Optimizing, updatedAt := now));
    var ds := DeliveriesOf(db.deliveries, batchId);
    var res := NoResult;
    if b.depot.None? {
      res := SolverThrew;
    } else {
      var coords := BuildLocations(b.depot.value, ds);
      var dm := buildMatrix(coords);
      if dm.Threw? {
        res := SolverThrew;
      } else {
        res := solve(dm.value, TimeMatrix(dm.value), SolverVehicles);
      }
    }
    assert res == SolverStage(b.depot, ds, buildMatrix, solve);
    var persisted := false;
    if res.Solved? {
      var vehicle := FirstOwned(db.vehicles, VehicleOwner, VehicleKey, b.owner);
      var driver := FirstOwned(db.drivers, DriverOwner, DriverKey, b.owner);
      persisted := PersistRoutes(db, batchId, res.routes, ds, vehicle, driver);
    }
    var final := FinalBatch(b, res, persisted, now);
    db.SaveBatch(i, final);
    ret := TaskResult(res, persisted);
    saves := [Optimizing, final.status];
  }
}
