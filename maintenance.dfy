/** The maintenance service: the periodic clean-up of old records and the
    morning SMS reminder to the drivers of the day's batches. The clock is
    the parameters `now` (seconds) and `today` (a day number); the SMS
    gateway is the parameter `send`; the cache back end is reduced to
    whether it offers pattern deletion. */
module Maintenance {
  import opened Support
  import opened Models
  import opened Store

  const SecondsPerDay: int := 86400

  /** `days_to_keep` when the caller gives none. */
  const DefaultDaysToKeep: int := 90

  /** Location updates are kept this many days, whatever `days_to_keep` is. */
  const LocationDaysToKeep: int := 30

  // ---------------------------------------------------------------------
  // Clean-up
  // ---------------------------------------------------------------------

  function UpdateBefore(t: int): LocationUpdate -> bool { (u: LocationUpdate) => u.timestamp < t }

  /** A completed batch last saved before the cut-off. */
  function Archived(cutoff: int): DeliveryBatch -> bool
  {
    (b: DeliveryBatch) => b.status == Completed && b.updatedAt < cutoff
  }

  function NotArchived(cutoff: int): DeliveryBatch -> bool
  {
    (b: DeliveryBatch) => !(b.status == Completed && b.updatedAt < cutoff)
  }

  /** Primary keys of the batches the clean-up archives. */
  function ArchivedIds(bs: seq<DeliveryBatch>, cutoff: int): set<Id>
  {
    set b | b in Filter(Archived(cutoff), bs) :: b.id
  }

  function Cutoff(now: int, daysToKeep: int): int { now - daysToKeep * SecondsPerDay }

  /** The tables the clean-up touches. */
  datatype Tables = Tables(batches: seq<DeliveryBatch>, deliveries: seq<Delivery>, routes: seq<Route>,
                           stops: seq<Stop>, updates: seq<LocationUpdate>)

  /** The tables after a clean-up that is not a dry run: location updates
      older than thirty days are gone, and so are the archived batches with
      their deliveries, routes, stops and location updates. */
  function Cleaned(t: Tables, now: int, daysToKeep: int): Tables
  {
    var ids := ArchivedIds(t.batches, Cutoff(now, daysToKeep));
    var routeIds := RouteIdsOf(t.routes, ids);
    var deliveryIds := DeliveryIdsOf(t.deliveries, ids);
    Tables(Filter(BatchOutside(ids), t.batches),
           Filter(DeliveryOutside(ids), t.deliveries),
           Filter(RouteOutside(ids), t.routes),
           Filter(StopOff(routeIds, deliveryIds), t.stops),
           Filter(UpdateOff(routeIds), Filter(UpdateNotBefore(now - LocationDaysToKeep * SecondsPerDay), t.updates)))
  }

  /** Every foreign key names a record that is there. */
  ghost predicate Consistent(t: Tables)
  {
    && (forall d :: d in t.deliveries ==> exists b :: b in t.batches && b.id == d.batch)
    && (forall r :: r in t.routes ==> exists b :: b in t.batches && b.id == r.batch)
    && (forall s :: s in t.stops ==>
          && (exists r :: r in t.routes && r.id == s.route)
          && (exists d :: d in t.deliveries && d.id == s.delivery))
    && (forall u :: u in t.updates ==> exists r :: r in t.routes && r.id == u.route)
  }

  /** The statistics the clean-up returns. `error` stands for the `error`
      entry and `completed` for the `completed_at` entry. */
  datatype CleanupStats = CleanupStats(cutoff: int, dryRun: bool, locationUpdates: nat, batches: nat,
                                       error: bool, completed: bool)

  ghost function TablesOf(db: Database): Tables
    reads db
  {
    Tables(db.batches, db.deliveries, db.routes, db.stops, db.locationUpdates)
  }

  /** The deletions for the archived batches `ids`, in the source's order:
      their routes' location updates, their deliveries (with the stops on
      them), their routes (with the remaining stops) and the batches. */
  method PurgeArchived(db: Database, ids: set<Id>)
    requires db.Valid()
    modifies db`locationUpdates, db`deliveries, db`stops, db`routes, db`batches
    ensures db.Valid()
    ensures db.batches == Filter(BatchOutside(ids), old(db.batches))
    ensures db.deliveries == Filter(DeliveryOutside(ids), old(db.deliveries))
    ensures db.routes == Filter(RouteOutside(ids), old(db.routes))
    ensures db.stops == Filter(StopOff(RouteIdsOf(old(db.routes), ids), DeliveryIdsOf(old(db.deliveries), ids)),
                               old(db.stops))
    ensures db.locationUpdates == Filter(UpdateOff(RouteIdsOf(old(db.routes), ids)), old(db.locationUpdates))
  {
    var routeIds := RouteIdsOf(db.routes, ids);
    ghost var deliveryIds := DeliveryIdsOf(db.deliveries, ids);
    ghost var stops := db.stops;
    ghost var updates := db.locationUpdates;
    db.DeleteUpdates(UpdateOff(routeIds));
    db.DeleteDeliveries(ids);
    db.DeleteRoutes(ids);
    db.DeleteBatches(ids);
    FilterTwice(UpdateOff(routeIds), UpdateOff(routeIds), UpdateOff(routeIds), updates);
    FilterTwice(StopOff({}, deliveryIds), StopOff(routeIds, {}), StopOff(routeIds, deliveryIds), stops);
  }

  /** With nothing archived the cascade filters keep every record. */
  lemma NothingArchived(t: Tables, ids: set<Id>)
    requires ids == {}
    ensures Filter(BatchOutside(ids), t.batches) == t.batches
    ensures Filter(DeliveryOutside(ids), t.deliveries) == t.deliveries
    ensures Filter(RouteOutside(ids), t.routes) == t.routes
    ensures Filter(StopOff(RouteIdsOf(t.routes, ids), DeliveryIdsOf(t.deliveries, ids)), t.stops) == t.stops
    ensures Filter(UpdateOff(RouteIdsOf(t.routes, ids)), t.updates) == t.updates
  {
    FilterAll(BatchOutside(ids), t.batches);
    FilterAll(DeliveryOutside(ids), t.deliveries);
    FilterAll(RouteOutside(ids), t.routes);
    FilterAll(StopOff(RouteIdsOf(t.routes, ids), DeliveryIdsOf(t.deliveries, ids)), t.stops);
    FilterAll(UpdateOff(RouteIdsOf(t.routes, ids)), t.updates);
  }

  /** `cleanup_old_data`. The counts are those of the selected records. A
      dry run deletes nothing. Otherwise the deletions happen, and then the
      cache clean-up raises when the cache back end has no pattern deletion;
      the exception is caught and reported as an `error` entry, with the
      deletions already done. Without `daysToKeep` the default of
      `DefaultDaysToKeep` days applies. */
  method Cleanup(db: Database, now: int, daysToKeep: Option<int>, dryRun: bool, cacheHasPatterns: bool)
    returns (stats: CleanupStats)
    requires db.Valid()
    modifies db`locationUpdates, db`deliveries, db`stops, db`routes, db`batches
    ensures db.Valid()
    ensures stats.cutoff == Cutoff(now, daysToKeep.GetOr(DefaultDaysToKeep)) && stats.dryRun == dryRun
    ensures stats.locationUpdates
            == |Filter(UpdateBefore(now - LocationDaysToKeep * SecondsPerDay), old(db.locationUpdates))|
    ensures stats.batches == |Filter(Archived(Cutoff(now, daysToKeep.GetOr(DefaultDaysToKeep))), old(db.batches))|
    ensures stats.error <==> !dryRun && !cacheHasPatterns
    ensures stats.completed <==> !stats.error
    ensures dryRun ==> unchanged(db)
    ensures !dryRun ==> TablesOf(db) == Cleaned(old(TablesOf(db)), now, daysToKeep.GetOr(DefaultDaysToKeep))
  {
    var cutoff := Cutoff(now, daysToKeep.GetOr(DefaultDaysToKeep));
    var recent := now - LocationDaysToKeep * SecondsPerDay;
    var updateCount := |Filter(UpdateBefore(recent), db.locationUpdates)|;
    if !dryRun {
      db.DeleteUpdates(UpdateNotBefore(recent));
    }
    var archived := Filter(Archived(cutoff), db.batches);
    var ids := ArchivedIds(db.batches, cutoff);
    if !dryRun && |archived| > 0 {
      PurgeArchived(db, ids);
    } else if !dryRun {
      assert archived == [];
      assert ids == {};
      NothingArchived(TablesOf(db), ids);
    }
    var error := !dryRun && !cacheHasPatterns;
    stats := CleanupStats(cutoff, dryRun, updateCount, |archived|, error, !error);
  }

  lemma SameKeySameBatch(bs: seq<DeliveryBatch>, b: DeliveryBatch, c: DeliveryBatch)
    requires DistinctBy(BatchKey, bs) && b in bs && c in bs && b.id == c.id
    ensures b == c
  {
    var i :| 0 <= i < |bs| && bs[i] == b;
    var j :| 0 <= j < |bs| && bs[j] == c;
    assert BatchKey(bs[i]) == BatchKey(bs[j]);
  }

  /** With unique batch keys the clean-up removes exactly the completed
      batches older than the cut-off and keeps every other batch. */
  lemma CleanedKeepsExactlyUnarchived(t: Tables, now: int, daysToKeep: int, b: DeliveryBatch)
    requires DistinctBy(BatchKey, t.batches)
    ensures b in Cleaned(t, now, daysToKeep).batches <==>
            b in t.batches && !(b.status == Completed && b.updatedAt < Cutoff(now, daysToKeep))
  {
    var cutoff := Cutoff(now, daysToKeep);
    var ids := ArchivedIds(t.batches, cutoff);
    if b in t.batches && !Archived(cutoff)(b) && b.id in ids {
      var c :| c in Filter(Archived(cutoff), t.batches) && c.id == b.id;
      SameKeySameBatch(t.batches, b, c);
    }
  }

  /** The batches the clean-up counts and the batches it leaves add up to
      the batches there were. */
  lemma CleanedCountsAddUp(t: Tables, now: int, daysToKeep: int)
    requires DistinctBy(BatchKey, t.batches)
    ensures |Filter(Archived(Cutoff(now, daysToKeep)), t.batches)| + |Cleaned(t, now, daysToKeep).batches|
            == |t.batches|
  {
    var cutoff := Cutoff(now, daysToKeep);
    var ids := ArchivedIds(t.batches, cutoff);
    forall b | b in t.batches ensures BatchOutside(ids)(b) == NotArchived(cutoff)(b) {
      CleanedKeepsExactlyUnarchived(t, now, daysToKeep, b);
    }
    FilterCongruent(BatchOutside(ids), NotArchived(cutoff), t.batches);
    FilterComplement(Archived(cutoff), NotArchived(cutoff), t.batches);
  }

  /** The cascade leaves no dangling foreign key behind. */
  lemma CleanedStaysConsistent(t: Tables, now: int, daysToKeep: int)
    requires Consistent(t)
    ensures Consistent(Cleaned(t, now, daysToKeep))
  {
    var c := Cleaned(t, now, daysToKeep);
    var ids := ArchivedIds(t.batches, Cutoff(now, daysToKeep));
    var routeIds := RouteIdsOf(t.routes, ids);
    var deliveryIds := DeliveryIdsOf(t.deliveries, ids);
    forall d | d in c.deliveries ensures exists b :: b in c.batches && b.id == d.batch {
      var b :| b in t.batches && b.id == d.batch;
      assert b in c.batches;
    }
    forall r | r in c.routes ensures exists b :: b in c.batches && b.id == r.batch {
      var b :| b in t.batches && b.id == r.batch;
      assert b in c.batches;
    }
    forall s | s in c.stops
      ensures (exists r :: r in c.routes && r.id == s.route) && (exists d :: d in c.deliveries && d.id == s.delivery)
    {
      var r :| r in t.routes && r.id == s.route;
      var d :| d in t.deliveries && d.id == s.delivery;
      assert r.batch in ids ==> r.id in routeIds;
      assert d.batch in ids ==> d.id in deliveryIds;
      assert r in c.routes && d in c.deliveries;
    }
    forall u | u in c.updates ensures exists r :: r in c.routes && r.id == u.route {
      var r :| r in t.routes && r.id == u.route;
      assert r.batch in ids ==> r.id in routeIds;
      assert r in c.routes;
    }
  }

  /** A second clean-up at the same moment finds nothing more to delete. */
  lemma CleanedIdempotent(t: Tables, now: int, daysToKeep: int)
    ensures Cleaned(Cleaned(t, now, daysToKeep), now, daysToKeep) == Cleaned(t, now, daysToKeep)
  {
    var cutoff := Cutoff(now, daysToKeep);
    var recent := now - LocationDaysToKeep * SecondsPerDay;
    var c := Cleaned(t, now, daysToKeep);
    var ids := ArchivedIds(t.batches, cutoff);
    assert ArchivedIds(c.batches, cutoff) == {} by {
      forall b | b in c.batches ensures !Archived(cutoff)(b) {
        assert b in t.batches && b.id !in ids;
        assert Archived(cutoff)(b) ==> b in Filter(Archived(cutoff), t.batches);
      }
    }
    var routeIds := RouteIdsOf(c.routes, {});
    assert routeIds == {};
    FilterAll(BatchOutside({}), c.batches);
    FilterAll(DeliveryOutside({}), c.deliveries);
    FilterAll(RouteOutside({}), c.routes);
    FilterAll(StopOff({}, DeliveryIdsOf(c.deliveries, {})), c.stops);
    var kept := Filter(UpdateNotBefore(recent), t.updates);
    var routeIdsBefore := RouteIdsOf(t.routes, ids);
    FilterTwice(UpdateNotBefore(recent), UpdateNotBefore(recent), UpdateNotBefore(recent), t.updates);
    calc {
      Filter(UpdateNotBefore(recent), c.updates);
      Filter(UpdateNotBefore(recent), Filter(UpdateOff(routeIdsBefore), kept));
      { FilterTwice(UpdateOff(routeIdsBefore), UpdateNotBefore(recent), UpdateOff(routeIdsBefore), kept); }
      c.updates;
    }
    FilterAll(UpdateOff({}), c.updates);
  }

  // ---------------------------------------------------------------------
  // Delivery reminders
  // ---------------------------------------------------------------------

  /** What is handed to the SMS gateway. */
  datatype SmsRequest = SmsRequest(to: string, message: string, batch: Id, route: Id)

  /** What the gateway does: report success or failure, or raise. */
  datatype SendOutcome = Sent(success: bool) | SendRaised

  /** One entry of a batch's `notifications` list: an attempt with the
      gateway's verdict and the message preview, or the entry written when
      preparing or sending raised. */
  datatype Notice =
    | Notice(driver: string, phone: string, success: bool, preview: string)
    | NoticeError(driver: string, phone: string)

  datatype BatchNotices = BatchNotices(batchId: Id, batchName: string, notices: seq<Notice>)

  datatype ReminderStats = ReminderStats(batchesProcessed: nat, notificationsSent: nat, batches: seq<BatchNotices>)

  /** Batches delivered today that are ready or under way. */
  function DueOn(today: int): DeliveryBatch -> bool
  {
    (b: DeliveryBatch) => b.deliveryDate == today && (b.status == Ready || b.status == InProgress)
  }

  /** The driver with primary key `id`. */
  function DriverById(drivers: seq<Driver>, id: Id): (r: Option<Driver>)
    ensures r.Some? ==> r.value in drivers && r.value.id == id
    ensures r.None? ==> forall d :: d in drivers ==> d.id != id
  {
    if drivers == [] then None
    else if drivers[0].id == id then Some(drivers[0])
    else DriverById(drivers[1..], id)
  }

  /** Previews are cut at this many characters. */
  const PreviewLength: nat := 50

  /** The message as listed in the statistics: itself when short enough,
      otherwise its first fifty characters and an ellipsis. */
  function Preview(m: string): (r: string)
    ensures |m| <= PreviewLength ==> r == m
    ensures |m| > PreviewLength ==> |r| == PreviewLength + 3 && r[..PreviewLength] == m[..PreviewLength]
                                    && r[PreviewLength..] == "..."
  {
    if |m| > PreviewLength then m[..PreviewLength] + "..." else m
  }

  /** The reminder text for a driver's first name and a stop count. */
  function ReminderMessage(firstName: string, stopCount: nat): string
  {
    "Hola " + firstName + ", recuerda que tienes una ruta programada para ma\U{00F1}ana. "
    + "Total de paradas: " + NatToString(stopCount) + ". \U{00A1}Buen viaje! \U{1F69A}"
  }

  /** Every reminder is longer than a preview, so every preview is cut. */
  lemma ReminderPreviewIsCut(firstName: string, stopCount: nat)
    ensures Preview(ReminderMessage(firstName, stopCount))
            == ReminderMessage(firstName, stopCount)[..PreviewLength] + "..."
  {
    var m := ReminderMessage(firstName, stopCount);
    var head := "Hola " + firstName + ", recuerda que tienes una ruta programada para ma\U{00F1}ana. ";
    assert |head| >= 60;
    assert |m| > PreviewLength;
  }

  function StopOfRoute(route: Id): Stop -> bool { (s: Stop) => s.route == route }

  /** The stop count a route's message reports: the number of its stops. */
  function StopCount(stops: seq<Stop>): Route -> Computed<nat>
  {
    (r: Route) => Value(|Filter(StopOfRoute(r.id), stops)|)
  }

  /** The stop count as the message asks for it: through a `deliveries`
      relation that a route does not have, so the lookup always raises. */
  function StopCountAsWritten(): Route -> Computed<nat>
  {
    (r: Route) => Threw
  }

  /** The entry written for one route, or `None` when the route is skipped
      because its driver is missing or has no phone. */
  function RouteNotice(b: DeliveryBatch, r: Route, drivers: seq<Driver>, counts: Route -> Computed<nat>,
                       send: SmsRequest -> SendOutcome): (n: Option<Notice>)
    ensures n.None? <==> DriverById(drivers, r.driver).None? || DriverById(drivers, r.driver).value.phone == ""
    ensures n.Some? ==> n.value.driver == DriverById(drivers, r.driver).value.name
                        && n.value.phone == DriverById(drivers, r.driver).value.phone
    ensures n.Some? && n.value.Notice? ==> FirstWord(DriverById(drivers, r.driver).value.name).Some?
                                           && counts(r).Value?
  {
    match DriverById(drivers, r.driver)
    case None => None
    case Some(d) =>
      if d.phone == "" then None
      else match FirstWord(d.name)
        case None => Some(NoticeError(d.name, d.phone))
        case Some(first) =>
          match counts(r)
          case Threw => Some(NoticeError(d.name, d.phone))
          case Value(n) =>
            var m := ReminderMessage(first, n);
            match send(SmsRequest(d.phone, m, b.id, r.id))
            case SendRaised => Some(NoticeError(d.name, d.phone))
            case Sent(ok) => Some(Notice(d.name, d.phone, ok, Preview(m)))
  }

  function NoticeList(n: Option<Notice>): seq<Notice>
  {
    if n.Some? then [n.value] else []
  }

  /** The entries of batch `b`, over the routes `rs` in store order. */
  function Notices(b: DeliveryBatch, rs: seq<Route>, drivers: seq<Driver>, counts: Route -> Computed<nat>,
                   send: SmsRequest -> SendOutcome): seq<Notice>
  {
    if rs == [] then []
    else
      var r := rs[|rs| - 1];
      Notices(b, rs[..|rs| - 1], drivers, counts, send)
      + (if r.batch == b.id then NoticeList(RouteNotice(b, r, drivers, counts, send)) else [])
  }

  predicate IsSuccess(n: Notice) { n.Notice? && n.success }

  /** How many entries report a successful send. */
  function SentIn(ns: seq<Notice>): nat { |Filter(IsSuccess, ns)| }

  /** The successes over all batches. */
  function TotalSent(bns: seq<BatchNotices>): nat
  {
    if bns == [] then 0 else TotalSent(bns[..|bns| - 1]) + SentIn(bns[|bns| - 1].notices)
  }

  /** The per-batch statistics over the batches `bs` in store order. */
  function Reports(bs: seq<DeliveryBatch>, today: int, routes: seq<Route>, drivers: seq<Driver>,
                   counts: Route -> Computed<nat>, send: SmsRequest -> SendOutcome): seq<BatchNotices>
  {
    if bs == [] then []
    else
      var b := bs[|bs| - 1];
      Reports(bs[..|bs| - 1], today, routes, drivers, counts, send)
      + (if DueOn(today)(b) then [BatchNotices(b.id, b.name, Notices(b, routes, drivers, counts, send))] else [])
  }

  lemma SentInAppend(ns: seq<Notice>, ms: seq<Notice>)
    ensures SentIn(ns + ms) == SentIn(ns) + SentIn(ms)
  {
    FilterAppend(IsSuccess, ns, ms);
  }

  lemma TotalSentAppend(bns: seq<BatchNotices>, x: BatchNotices)
    ensures TotalSent(bns + [x]) == TotalSent(bns) + SentIn(x.notices)
  {
    assert (bns + [x])[..|bns|] == bns;
  }

  /** One report per due batch, in store order, each listing that batch. */
  lemma {:induction false} ReportsFollowSelection(bs: seq<DeliveryBatch>, today: int, routes: seq<Route>,
                                                  drivers: seq<Driver>, counts: Route -> Computed<nat>,
                                                  send: SmsRequest -> SendOutcome)
    ensures |Reports(bs, today, routes, drivers, counts, send)| == |Filter(DueOn(today), bs)|
    ensures forall k :: 0 <= k < |Filter(DueOn(today), bs)| ==>
              Reports(bs, today, routes, drivers, counts, send)[k]
              == BatchNotices(Filter(DueOn(today), bs)[k].id, Filter(DueOn(today), bs)[k].name,
                              Notices(Filter(DueOn(today), bs)[k], routes, drivers, counts, send))
  {
    if bs != [] {
      var init := bs[..|bs| - 1];
      var b := bs[|bs| - 1];
      ReportsFollowSelection(init, today, routes, drivers, counts, send);
      assert bs == init + [b];
      FilterAppend(DueOn(today), init, [b]);
    }
  }

  /** The inner loop of `send_delivery_reminders`: the entries of batch
      `b`, one per route of it whose driver has a phone, and how many of
      them report a successful send. */
  method NotifyBatch(db: Database, b: DeliveryBatch, counts: Route -> Computed<nat>, send: SmsRequest -> SendOutcome)
    returns (notices: seq<Notice>, sentHere: nat)
    ensures notices == Notices(b, db.routes, db.drivers, counts, send)
    ensures sentHere == SentIn(notices)
  {
    notices := [];
    sentHere := 0;
    for j := 0 to |db.routes|
      invariant notices == Notices(b, db.routes[..j], db.drivers, counts, send)
      invariant sentHere == SentIn(notices)
    {
      var r := db.routes[j];
      assert db.routes[..j + 1][..j] == db.routes[..j];
      if r.batch == b.id {
        var n := RouteNotice(b, r, db.drivers, counts, send);
        SentInAppend(notices, NoticeList(n));
        notices := notices + NoticeList(n);
        if n.Some? && IsSuccess(n.value) {
          sentHere := sentHere + 1;
        }
      } else {
        assert notices + [] == notices;
      }
    }
    assert db.routes[..|db.routes|] == db.routes;
  }

  /** `send_delivery_reminders`: one report per due batch, an entry per
      route whose driver has a phone, and a count of the successful sends.
      The stop count is asked for as the source asks for it, so every entry
      is an error entry and nothing is counted as sent. */
  method SendReminders(db: Database, today: int, send: SmsRequest -> SendOutcome) returns (stats: ReminderStats)
    ensures stats.batchesProcessed == |Filter(DueOn(today), db.batches)| == |stats.batches|
    ensures forall k :: 0 <= k < |stats.batches| ==>
              stats.batches[k]
              == BatchNotices(Filter(DueOn(today), db.batches)[k].id, Filter(DueOn(today), db.batches)[k].name,
                              Notices(Filter(DueOn(today), db.batches)[k], db.routes, db.drivers,
                                      StopCountAsWritten(), send))
    ensures stats.notificationsSent == TotalSent(stats.batches) == 0
    ensures forall k, n :: 0 <= k < |stats.batches| && n in stats.batches[k].notices ==> n.NoticeError?
  {
    var counts := StopCountAsWritten();
    var reports: seq<BatchNotices> := [];
    var processed := 0;
    var sent := 0;
    for i := 0 to |db.batches|
      invariant reports == Reports(db.batches[..i], today, db.routes, db.drivers, counts, send)
      invariant processed == |reports|
      invariant sent == TotalSent(reports) == 0
      invariant forall k, n :: 0 <= k < |reports| && n in reports[k].notices ==> n.NoticeError?
    {
      var b := db.batches[i];
      assert db.batches[..i + 1][..i] == db.batches[..i];
      if DueOn(today)(b) {
        var notices, sentHere := NotifyBatch(db, b, counts, send);
        AsWrittenSendsNothing(b, db.routes, db.drivers, send, send);
        var report := BatchNotices(b.id, b.name, notices);
        TotalSentAppend(reports, report);
        reports := reports + [report];
        sent := sent + sentHere;
        processed := processed + 1;
      } else {
        assert reports + [] == reports;
      }
    }
    assert db.batches[..|db.batches|] == db.batches;
    ReportsFollowSelection(db.batches, today, db.routes, db.drivers, counts, send);
    stats := ReminderStats(processed, sent, reports);
  }

  /** The routes of batch `b` that get an entry. */
  function Reached(b: DeliveryBatch, drivers: seq<Driver>): Route -> bool
  {
    (r: Route) => r.batch == b.id && DriverById(drivers, r.driver).Some? && DriverById(drivers, r.driver).value.phone != ""
  }

  /** The routes of batch `b` whose reminder the gateway accepted. */
  function Delivered(b: DeliveryBatch, drivers: seq<Driver>, stops: seq<Stop>, send: SmsRequest -> SendOutcome)
    : Route -> bool
  {
    (r: Route) =>
      && Reached(b, drivers)(r)
      && var d := DriverById(drivers, r.driver).value;
         && FirstWord(d.name).Some?
         && send(SmsRequest(d.phone, ReminderMessage(FirstWord(d.name).value, |Filter(StopOfRoute(r.id), stops)|),
                            b.id, r.id)) == Sent(true)
  }

  /** A batch gets one entry per route of it whose driver has a phone. */
  lemma {:induction false} NoticesPerReachedRoute(b: DeliveryBatch, rs: seq<Route>, drivers: seq<Driver>,
                                                  counts: Route -> Computed<nat>, send: SmsRequest -> SendOutcome)
    ensures |Notices(b, rs, drivers, counts, send)| == |Filter(Reached(b, drivers), rs)|
  {
    if rs != [] {
      var init := rs[..|rs| - 1];
      NoticesPerReachedRoute(b, init, drivers, counts, send);
      assert rs == init + [rs[|rs| - 1]];
      FilterAppend(Reached(b, drivers), init, [rs[|rs| - 1]]);
    }
  }

  /** With the stop count taken from the route's stops, the successes
      counted are exactly the routes whose reminder the gateway accepted. */
  lemma {:induction false} SentCountsDelivered(b: DeliveryBatch, rs: seq<Route>, drivers: seq<Driver>,
                                               stops: seq<Stop>, send: SmsRequest -> SendOutcome)
    ensures SentIn(Notices(b, rs, drivers, StopCount(stops), send)) == |Filter(Delivered(b, drivers, stops, send), rs)|
  {
    if rs != [] {
      var init := rs[..|rs| - 1];
      var r := rs[|rs| - 1];
      SentCountsDelivered(b, init, drivers, stops, send);
      assert rs == init + [r];
      FilterAppend(Delivered(b, drivers, stops, send), init, [r]);
      var tail := if r.batch == b.id then NoticeList(RouteNotice(b, r, drivers, StopCount(stops), send)) else [];
      SentInAppend(Notices(b, init, drivers, StopCount(stops), send), tail);
      RouteSent(b, r, drivers, stops, send);
    }
  }

  lemma RouteSent(b: DeliveryBatch, r: Route, drivers: seq<Driver>, stops: seq<Stop>, send: SmsRequest -> SendOutcome)
    ensures SentIn(if r.batch == b.id then NoticeList(RouteNotice(b, r, drivers, StopCount(stops), send)) else [])
            == |Filter(Delivered(b, drivers, stops, send), [r])|
  {
    assert [r][1..] == [];
    var tail := if r.batch == b.id then NoticeList(RouteNotice(b, r, drivers, StopCount(stops), send)) else [];
    assert Filter(Delivered(b, drivers, stops, send), [r])
           == if Delivered(b, drivers, stops, send)(r) then [r] else [];
    if Reached(b, drivers)(r) {
      var d := DriverById(drivers, r.driver).value;
      var n := RouteNotice(b, r, drivers, StopCount(stops), send);
      assert tail == [n.value];
      assert Filter(IsSuccess, tail) == if IsSuccess(n.value) then [n.value] else [];
      if FirstWord(d.name).Some? {
        var m := ReminderMessage(FirstWord(d.name).value, |Filter(StopOfRoute(r.id), stops)|);
        assert IsSuccess(n.value) <==> send(SmsRequest(d.phone, m, b.id, r.id)) == Sent(true);
      }
    } else {
      assert tail == [];
    }
  }

  /** As written, the message cannot be built, so every entry is an error
      entry, nothing is counted as sent, and the gateway is never consulted. */
  lemma {:induction false} AsWrittenSendsNothing(b: DeliveryBatch, rs: seq<Route>, drivers: seq<Driver>,
                                                 send: SmsRequest -> SendOutcome, other: SmsRequest -> SendOutcome)
    ensures SentIn(Notices(b, rs, drivers, StopCountAsWritten(), send)) == 0
    ensures forall n :: n in Notices(b, rs, drivers, StopCountAsWritten(), send) ==> n.NoticeError?
    ensures Notices(b, rs, drivers, StopCountAsWritten(), send) == Notices(b, rs, drivers, StopCountAsWritten(), other)
  {
    if rs != [] {
      var init := rs[..|rs| - 1];
      var r := rs[|rs| - 1];
      AsWrittenSendsNothing(b, init, drivers, send, other);
      var tail := if r.batch == b.id then NoticeList(RouteNotice(b, r, drivers, StopCountAsWritten(), send)) else [];
      SentInAppend(Notices(b, init, drivers, StopCountAsWritten(), send), tail);
    }
  }

  /** The total count never exceeds the number of entries. */
  lemma {:induction false} TotalSentBounded(bns: seq<BatchNotices>)
    ensures TotalSent(bns) <= TotalNotices(bns)
  {
    if bns != [] {
      TotalSentBounded(bns[..|bns| - 1]);
    }
  }

  function TotalNotices(bns: seq<BatchNotices>): nat
  {
    if bns == [] then 0 else TotalNotices(bns[..|bns| - 1]) + |bns[|bns| - 1].notices|
  }
}
