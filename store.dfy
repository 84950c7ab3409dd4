/** The relational store the back end works on, held in memory: one sequence
    of records per table, in primary-key order, and the handful of writes
    the optimization and maintenance code performs. Deleting a route or a
    delivery also removes what the foreign keys cascade to. */
module Store {
  import opened Support
  import opened Models

  function BatchKey(b: DeliveryBatch): Id { b.id }
  function RouteKey(r: Route): Id { r.id }

  /** Position of the batch with primary key `id`. */
  function IndexOfBatch(bs: seq<DeliveryBatch>, id: Id): (r: Option<nat>)
    ensures r.Some? ==> r.value < |bs| && bs[r.value].id == id
    ensures r.None? ==> forall i :: 0 <= i < |bs| ==> bs[i].id != id
  {
    if bs == [] then None
    else if bs[0].id == id then Some(0)
    else match IndexOfBatch(bs[1..], id)
      case None => None
      case Some(i) => Some(i + 1)
  }

  function BatchOutside(ids: set<Id>): DeliveryBatch -> bool { (b: DeliveryBatch) => b.id !in ids }
  function DeliveryOfBatch(batch: Id): Delivery -> bool { (d: Delivery) => d.batch == batch }
  function DeliveryOutside(batchIds: set<Id>): Delivery -> bool { (d: Delivery) => d.batch !in batchIds }
  function RouteOutside(batchIds: set<Id>): Route -> bool { (r: Route) => r.batch !in batchIds }
  function StopOff(routeIds: set<Id>, deliveryIds: set<Id>): Stop -> bool
  {
    (s: Stop) => s.route !in routeIds && s.delivery !in deliveryIds
  }
  function UpdateOff(routeIds: set<Id>): LocationUpdate -> bool { (u: LocationUpdate) => u.route !in routeIds }
  function UpdateNotBefore(t: int): LocationUpdate -> bool { (u: LocationUpdate) => !(u.timestamp < t) }

  /** Primary keys of the routes of the given batches. */
  function RouteIdsOf(routes: seq<Route>, batchIds: set<Id>): set<Id>
  {
    set r | r in routes && r.batch in batchIds :: r.id
  }

  /** Primary keys of the deliveries of the given batches. */
  function DeliveryIdsOf(ds: seq<Delivery>, batchIds: set<Id>): set<Id>
  {
    set d | d in ds && d.batch in batchIds :: d.id
  }

  /** The deliveries of a batch, in store order. */
  function DeliveriesOf(ds: seq<Delivery>, batch: Id): seq<Delivery>
  {
    Filter(DeliveryOfBatch(batch), ds)
  }

  class Database {
    var users: seq<User>
    var vehicles: seq<Vehicle>
    var drivers: seq<Driver>
    var batches: seq<DeliveryBatch>
    var deliveries: seq<Delivery>
    var routes: seq<Route>
    var stops: seq<Stop>
    var locationUpdates: seq<LocationUpdate>
    var nextId: nat

    /** Primary keys are unique, every route key was handed out by `nextId`,
        and no delivery has two stops. */
    ghost predicate Valid()
      reads this
    {
      && DistinctBy(BatchKey, batches)
      && DistinctBy(RouteKey, routes)
      && (forall r :: r in routes ==> r.id < nextId)
      && StopsOneToOne(stops)
    }

    /** Write a batch record back, as `batch.save()` does. */
    method SaveBatch(i: nat, b: DeliveryBatch)
      requires Valid() && i < |batches| && b.id == batches[i].id
      modifies this`batches
      ensures Valid()
      ensures batches == old(batches)[i := b]
    {
      batches := batches[i := b];
    }

    /** Insert a route under a fresh primary key. */
    method CreateRoute(r: Route) returns (id: Id)
      requires Valid()
      modifies this`routes, this`nextId
      ensures Valid()
      ensures id == old(nextId) && nextId == old(nextId) + 1
      ensures routes == old(routes) + [r.(id := id)]
    {
      id := nextId;
      routes := routes + [r.(id := id)];
      nextId := nextId + 1;
    }

    /** Insert a stop; the insert is refused (an integrity error in the
        source) when its delivery already has a stop. */
    method CreateStop(s: Stop) returns (ok: bool)
      requires Valid()
      modifies this`stops
      ensures Valid()
      ensures ok <==> !HasStopFor(old(stops), s.delivery)
      ensures stops == if ok then old(stops) + [s] else old(stops)
    {
      ok := true;
      for i := 0 to |stops|
        invariant ok <==> forall j :: 0 <= j < i ==> stops[j].delivery != s.delivery
      {
        if stops[i].delivery == s.delivery {
          ok := false;
        }
      }
      if ok {
        stops := stops + [s];
      }
    }

    /** Set the status of the delivery with primary key `id`. */
    method SetDeliveryStatus(id: Id, status: DeliveryStatus)
      requires Valid()
      modifies this`deliveries
      ensures Valid()
      ensures |deliveries| == |old(deliveries)|
      ensures forall k :: 0 <= k < |deliveries| ==>
                deliveries[k] == if old(deliveries)[k].id == id then old(deliveries)[k].(status := status)
                                 else old(deliveries)[k]
    {
      var i := 0;
      ghost var before := deliveries;
      while i < |deliveries|
        invariant 0 <= i <= |deliveries| == |before|
        invariant forall k :: 0 <= k < i ==>
                    deliveries[k] == if before[k].id == id then before[k].(status := status) else before[k]
        invariant forall k :: i <= k < |deliveries| ==> deliveries[k] == before[k]
      {
        if deliveries[i].id == id {
          deliveries := deliveries[i := deliveries[i].(status := status)];
        }
        i := i + 1;
      }
    }

    /** Delete the routes of the given batches, with the stops and location
        updates that hang off them. */
    method DeleteRoutes(batchIds: set<Id>)
      requires Valid()
      modifies this`routes, this`stops, this`locationUpdates
      ensures Valid()
      ensures routes == Filter(RouteOutside(batchIds), old(routes))
      ensures stops == Filter(StopOff(RouteIdsOf(old(routes), batchIds), {}), old(stops))
      ensures locationUpdates == Filter(UpdateOff(RouteIdsOf(old(routes), batchIds)), old(locationUpdates))
    {
      var ids := RouteIdsOf(routes, batchIds);
      FilterDistinctBy(RouteKey, RouteOutside(batchIds), routes);
      FilterDistinctBy(StopDelivery, StopOff(ids, {}), stops);
      stops := Filter(StopOff(ids, {}), stops);
      locationUpdates := Filter(UpdateOff(ids), locationUpdates);
      routes := Filter(RouteOutside(batchIds), routes);
    }

    /** Delete the deliveries of the given batches, with the stops that
        reference them. */
    method DeleteDeliveries(batchIds: set<Id>)
      requires Valid()
      modifies this`deliveries, this`stops
      ensures Valid()
      ensures deliveries == Filter(DeliveryOutside(batchIds), old(deliveries))
      ensures stops == Filter(StopOff({}, DeliveryIdsOf(old(deliveries), batchIds)), old(stops))
    {
      var ids := DeliveryIdsOf(deliveries, batchIds);
      FilterDistinctBy(StopDelivery, StopOff({}, ids), stops);
      stops := Filter(StopOff({}, ids), stops);
      deliveries := Filter(DeliveryOutside(batchIds), deliveries);
    }

    /** Delete the given batches. Their deliveries and routes are expected
        to be gone already. */
    method DeleteBatches(batchIds: set<Id>)
      requires Valid()
      modifies this`batches
      ensures Valid()
      ensures batches == Filter(BatchOutside(batchIds), old(batches))
    {
      FilterDistinctBy(BatchKey, BatchOutside(batchIds), batches);
      batches := Filter(BatchOutside(batchIds), batches);
    }

    /** Delete the location updates that `keep` rejects. */
    method DeleteUpdates(keep: LocationUpdate -> bool)
      requires Valid()
      modifies this`locationUpdates
      ensures Valid()
      ensures locationUpdates == Filter(keep, old(locationUpdates))
    {
      locationUpdates := Filter(keep, locationUpdates);
    }
  }
}
