/** The persisted entities of the routing back end: their status choices
    and the values a freshly created record carries. Primary keys are UUIDs
    in the system; here they are abstract natural numbers. */
module Models {
  import opened Support

  type Id = nat

  datatype SubscriptionPlan = Free | Basic | Pro

  datatype VehicleType = Motorcycle | Car | Van | Truck

  /** The values a batch's status column can hold. The first five are the
      declared choices; `Failed` is written by the asynchronous optimization
      job although it is not one of them (the column does not enforce its
      choices on save). */
  datatype BatchStatus = Draft | Optimizing | Ready | InProgress | Completed | Failed

  datatype DeliveryStatus = Pending | Assigned | OutForDelivery | Delivered | DeliveryFailed | Returned

  datatype RouteStatus = Planned | Started | RouteCompleted

  datatype StopStatus = StopPending | Arrived | StopDelivered | StopFailed

  /** The text stored in the status column and sent to the browser. */
  function BatchStatusCode(s: BatchStatus): string
  {
    match s
    case Draft => "draft"
    case Optimizing => "optimizing"
    case Ready => "ready"
    case InProgress => "in_progress"
    case Completed => "completed"
    case Failed => "failed"
  }

  /** The declared choices of the batch status column. */
  predicate IsDeclaredBatchStatus(s: BatchStatus)
  {
    s != Failed
  }

  /** The declared choices are exactly draft, optimizing, ready, in_progress
      and completed; "failed" is not among their codes. */
  lemma DeclaredBatchStatusCodes()
    ensures (set s: BatchStatus | IsDeclaredBatchStatus(s) :: BatchStatusCode(s))
            == {"draft", "optimizing", "ready", "in_progress", "completed"}
    ensures forall s: BatchStatus :: IsDeclaredBatchStatus(s) ==> BatchStatusCode(s) != "failed"
  {
    var codes := set s: BatchStatus | IsDeclaredBatchStatus(s) :: BatchStatusCode(s);
    assert BatchStatusCode(Draft) in codes;
    assert BatchStatusCode(Optimizing) in codes;
    assert BatchStatusCode(Ready) in codes;
    assert BatchStatusCode(InProgress) in codes;
    assert BatchStatusCode(Completed) in codes;
  }

  /** Different statuses are stored as different codes, so the browser can
      tell them apart. */
  lemma BatchStatusCodeInjective(s: BatchStatus, t: BatchStatus)
    requires BatchStatusCode(s) == BatchStatusCode(t)
    ensures s == t
  {
  }

  datatype Coord = Coord(lat: real, lng: real)

  datatype User = User(id: Id, username: string, businessName: string, phone: string,
                       address: string, plan: SubscriptionPlan)

  datatype Vehicle = Vehicle(id: Id, owner: Id, name: string, licensePlate: string,
                             vehicleType: VehicleType, maxStops: int, isActive: bool)

  datatype Driver = Driver(id: Id, owner: Id, name: string, phone: string, isActive: bool)

  /** A delivery batch. `updatedAt` is refreshed on every save. There is no
      optimization timestamp column. */
  datatype DeliveryBatch = DeliveryBatch(
    id: Id, owner: Id, name: string, deliveryDate: int, depotAddress: string,
    depot: Option<Coord>, status: BatchStatus, totalStops: int,
    totalDistanceKm: Option<real>, estimatedDurationMinutes: Option<int>, updatedAt: int)

  /** A delivery. It has no column for its route or its position in a route:
      that link lives only in `Stop`. */
  datatype Delivery = Delivery(id: Id, batch: Id, customer: Id, address: string,
                               coordinates: Option<Coord>, phone: string, status: DeliveryStatus)

  datatype Route = Route(id: Id, batch: Id, vehicle: Id, driver: Id, routeOrder: int,
                         totalDistanceKm: real, estimatedDurationMinutes: int, status: RouteStatus)

  /** A stop of a route. Its delivery column is one-to-one. */
  datatype Stop = Stop(route: Id, delivery: Id, stopOrder: int, status: StopStatus)

  datatype LocationUpdate = LocationUpdate(id: Id, route: Id, driver: Id, timestamp: int)

  function NewUser(id: Id, username: string, businessName: string): (u: User)
    ensures u.id == id && u.username == username && u.businessName == businessName
    ensures u.plan == Free
    ensures u.phone == "" && u.address == ""
  {
    User(id, username, businessName, "", "", Free)
  }

  function NewVehicle(id: Id, owner: Id, name: string, vehicleType: VehicleType): (v: Vehicle)
    ensures v.id == id && v.owner == owner && v.name == name && v.vehicleType == vehicleType
    ensures v.maxStops == 30 && v.isActive
    ensures v.licensePlate == ""
  {
    Vehicle(id, owner, name, "", vehicleType, 30, true)
  }

  function NewDriver(id: Id, owner: Id, name: string, phone: string): (d: Driver)
    ensures d.id == id && d.owner == owner && d.name == name && d.phone == phone
    ensures d.isActive
  {
    Driver(id, owner, name, phone, true)
  }

  function NewBatch(id: Id, owner: Id, name: string, deliveryDate: int, depotAddress: string,
                    depot: Option<Coord>, now: int): (b: DeliveryBatch)
    ensures b.id == id && b.owner == owner && b.name == name && b.deliveryDate == deliveryDate
    ensures b.depotAddress == depotAddress && b.depot == depot && b.updatedAt == now
    ensures b.status == Draft && b.totalStops == 0
    ensures b.totalDistanceKm == None && b.estimatedDurationMinutes == None
  {
    DeliveryBatch(id, owner, name, deliveryDate, depotAddress, depot, Draft, 0, None, None, now)
  }

  function NewDelivery(id: Id, batch: Id, customer: Id, address: string,
                       coordinates: Option<Coord>): (d: Delivery)
    ensures d.id == id && d.batch == batch && d.customer == customer
    ensures d.address == address && d.coordinates == coordinates && d.phone == ""
    ensures d.status == Pending
  {
    Delivery(id, batch, customer, address, coordinates, "", Pending)
  }

  function NewRoute(id: Id, batch: Id, vehicle: Id, driver: Id, routeOrder: int,
                    km: real, minutes: int): (r: Route)
    ensures r.id == id && r.batch == batch && r.vehicle == vehicle && r.driver == driver
    ensures r.routeOrder == routeOrder && r.totalDistanceKm == km && r.estimatedDurationMinutes == minutes
    ensures r.status == Planned
  {
    Route(id, batch, vehicle, driver, routeOrder, km, minutes, Planned)
  }

  function NewStop(route: Id, delivery: Id, stopOrder: int): (s: Stop)
    ensures s.route == route && s.delivery == delivery && s.stopOrder == stopOrder
    ensures s.status == StopPending
  {
    Stop(route, delivery, stopOrder, StopPending)
  }

  /** Stop's delivery column is one-to-one: no delivery is referenced by two stops. */
  ghost predicate StopsOneToOne(stops: seq<Stop>)
  {
    DistinctBy(StopDelivery, stops)
  }

  function StopDelivery(s: Stop): Id { s.delivery }

  /** Whether some stop already references a delivery. */
  predicate HasStopFor(stops: seq<Stop>, delivery: Id)
  {
    exists i :: 0 <= i < |stops| && stops[i].delivery == delivery
  }
}
