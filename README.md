# Rutas RD: a Dafny model of the route-optimization core

Rutas RD is a multi-tenant delivery-routing service. A business owns vehicles,
drivers and customers, and groups deliveries into delivery batches. A batch is
optimized into routes, and each route has an ordered list of stops. Drivers
report location updates while they work a route.

This project models the parts of the back end and front end that move a batch
through its life cycle, and proves properties of that model:

- **entities** (`models.dfy`, `store.dfy`): users, vehicles, drivers, batches,
  deliveries, routes, stops and location updates. Their status choices and
  creation defaults are modelled.
  - The in-memory store `Store.Database` holds one sequence per table.
  - It keeps the primary keys unique and the stop→delivery column one-to-one.
  - Its writes, including the deletions and their foreign-key cascades, are
    specified as functions of the old tables.
- **the optimize endpoint** (`optimize_view.dfy`). It answers 404, 400 or
  "optimizing", and enqueues the job only in the last case.
- **the asynchronous optimization job** (`optimize_task.dfy`). It does the
  following:
  - saves the batch as optimizing;
  - builds the location list (`locations.dfy`) and the matrices;
  - runs the solver for two vehicles;
  - persists routes and interior stops with no transaction;
  - finishes in `ready` or `failed`.
- **the `optimize_routes` management command** (`optimize_command.dfy`). It
  does the following:
  - selects batches;
  - checks the active fleet and the deliveries;
  - replaces the batch's routes with a round-robin choice of vehicle and
    driver;
  - marks the visited deliveries `assigned`;
  - records the totals on the batch.
- **geocoding and distance matrices** (`geocoding.dfy`). Geocoding tries
  Nominatim first and falls back to Google. Matrices try OSRM first and fall
  back to Google's distance matrix. Every HTTP call is a function parameter.
- **maintenance** (`maintenance.dfy`). It covers the clean-up of old location
  updates and archived batches (with their cascade), and the morning SMS
  reminder to drivers.
- **the `export_import_data` command** (`export_import.dfy`). Export selects
  models and filters by owner. Import walks the sections in dependency order,
  remaps owners and de-duplicates, and either commits, rolls back, or treats
  the run as dry.
- **the `useOptimizationStatus` hook** (`poll_status.dfy`). It polls the batch
  until it is `ready` or `failed`, and clears its loading flag. It is modelled
  as a class whose state follows an event-stepping specification.

`support.dfy` holds helpers:

- Python list semantics: negative indexing and `[1:-1]`;
- `filter` and its lemmas;
- string helpers: `split`, `join`, `strip`, `lower` and `split()[0]`.

How some of the source's behaviour is modelled:

- **Clocks.** They are integer parameters: seconds for `now`, a day number for
  `today`.
- **Primary keys.** They are natural numbers, not UUIDs.
- **External services.** The solver, the matrix builder, the SMS gateway and
  the HTTP endpoints are function parameters.
- **Import hooks.** Building and saving a record on import are given as
  predicates that say whether each succeeds.
- **Cache back end.** It is the flag `cacheHasPatterns`. The settings in the
  repository configure no cache, so Django's default in-memory cache is in
  use, and it has no `delete_pattern`. With that default, every clean-up that
  is not a dry run ends with an `error` entry after its deletions have been
  applied (`Maintenance.Cleanup`, case `!cacheHasPatterns`).
- **Attributes that are not columns.** Setting `delivery.route`,
  `delivery.stop_order` (backend/apps/core/management/commands/optimize_routes.py:121-122) or
  `batch.optimized_at` (optimize_routes.py:143) stores nothing, because none
  of these is a column. The model therefore persists only the delivery's
  status and the batch's totals. The position of a delivery is returned as
  `Assignment` values.
- **Failed status.** The job writes `failed`, which is not one of the declared
  status choices; `Models.DeclaredBatchStatusCodes` states this.

## Model

| member | source | states |
|---|---|---|
| Models.DeclaredBatchStatusCodes | backend/apps/core/models.py:93-102 | the declared batch statuses are exactly draft, optimizing, ready, in_progress and completed; "failed" is not one of them |
| Models.BatchStatusCodeInjective | backend/apps/core/models.py:93-102 | two statuses with the same stored code are the same status |
| Models.NewUser | backend/apps/core/models.py:9-19 | a new user has the free plan and empty phone and address |
| Models.NewVehicle | backend/apps/core/models.py:33-46 | a new vehicle allows 30 stops, is active and has an empty plate |
| Models.NewDriver | backend/apps/core/models.py:56-62 | a new driver is active |
| Models.NewBatch | backend/apps/core/models.py:88-108 | a new batch is a draft with zero stops and no totals; its modification time is the creation time |
| Models.NewDelivery | backend/apps/core/models.py:117-144 | a new delivery is pending, with an empty phone override |
| Models.NewRoute | backend/apps/core/models.py:157-175 | a new route is planned and keeps the given batch, vehicle, driver, order and totals |
| Models.NewStop | backend/apps/core/models.py:189-212 | a new stop is pending |
| Store.IndexOfBatch | backend/apps/optimization/tasks.py:8 | the lookup by primary key finds a position holding that key, or there is none |
| Store.Database.SaveBatch | backend/apps/optimization/tasks.py:9-10 | saving replaces exactly that batch record and keeps the store valid |
| Store.Database.CreateRoute | backend/apps/optimization/tasks.py:33-41 | a route is appended under the next unused key |
| Store.Database.CreateStop | backend/apps/core/models.py:190 | the insert succeeds iff the delivery has no stop yet; on success exactly that stop is appended, otherwise nothing changes |
| Store.Database.SetDeliveryStatus | backend/apps/core/management/commands/optimize_routes.py:123-124 | only the status of the deliveries with that key changes |
| Store.Database.DeleteRoutes | backend/apps/core/management/commands/optimize_routes.py:87 | the batch's routes go, together with the stops and location updates of those routes (the cascade); all else stays |
| Store.Database.DeleteDeliveries | backend/scripts/maintenance.py:69 | the batches' deliveries go, together with the stops that reference them |
| Store.Database.DeleteBatches | backend/scripts/maintenance.py:71 | exactly the batches with the given keys go |
| Store.Database.DeleteUpdates | backend/scripts/maintenance.py:49-55 | exactly the location updates rejected by the predicate go |
| OptimizeView.OptimizeBatch | backend/apps/optimization/views.py:9-23 | the response is 404 iff the requester owns no batch with that id; 400 iff the owned batch is not a draft; otherwise "optimizing" with the task id. The job is enqueued exactly in the last case |
| Locations.LocatedCoordsMatch | backend/apps/optimization/tasks.py:13-17 | one coordinate per delivery that has coordinates; each is that delivery's coordinates, in order |
| Locations.BuildLocations | backend/apps/core/management/commands/optimize_routes.py:65-70 | the location list is the depot followed by the coordinates of the located deliveries, so it has 1 + (number located) entries |
| Locations.DeliveryAtMatchesLocation | backend/apps/core/management/commands/optimize_routes.py:120 | (corrected) every non-depot index inside the location list resolves to a delivery of the batch that sits at that location; any index past the list resolves to nothing |
| Locations.DeliveryAtAgreesWhenAllLocated | backend/apps/optimization/tasks.py:44 | when every delivery has coordinates, the source's resolution and the corrected one agree |
| Locations.DeliveryAtAsWrittenMisaligned | backend/apps/optimization/tasks.py:44 | with one delivery lacking coordinates, location 1 is resolved as written to a delivery that is not at location 1 |
| OptimizeTask.Km | backend/apps/optimization/tasks.py:38 | kilometres times 1000 give back the metres |
| OptimizeTask.Minutes | backend/apps/optimization/tasks.py:39 | the minutes are the seconds divided by 60, rounded down |
| OptimizeTask.TimeMatrix | backend/apps/optimization/tasks.py:21 | the time matrix has the distance matrix's shape; each cell is the distance divided by 50, rounded down |
| OptimizeTask.FirstOwned | backend/apps/optimization/tasks.py:30-31 | a vehicle (driver) is found iff the owner has one, active or not; it is the owner's one with the least primary key, the order `.first()` uses on a model without a declared ordering |
| OptimizeTask.PlannedRoutes | backend/apps/optimization/tasks.py:29-41 | one route record per solver route, route k having order k+1, the k-th new key and the solver's totals converted to km and minutes |
| OptimizeTask.RouteStopsResolve | backend/apps/optimization/tasks.py:43-49 | a route's stops exist iff every interior index is in range of all the batch's deliveries; stop k is then on delivery `deliveries[idx - 1]` with the index as its order |
| OptimizeTask.PersistStops | backend/apps/optimization/tasks.py:43-49 | each interior index is resolved as written, `deliveries[idx - 1]` over all the batch's deliveries. Writing succeeds iff every index is in range and no delivery gets a second stop; on success exactly the planned stops are appended; what was written before a failure stays |
| OptimizeTask.PersistRoute | backend/apps/optimization/tasks.py:33-49 | one route record is appended with the next key, the order k+1 and the converted totals; its stops are written as PersistStops says |
| OptimizeTask.PersistRoutes | backend/apps/optimization/tasks.py:29-49 | persisting a solution succeeds iff a vehicle and a driver exist, every stop index resolves as written and the result stays one-to-one; on success exactly the planned routes and stops are appended; partial writes otherwise remain |
| OptimizeTask.FinalBatch | backend/apps/optimization/tasks.py:51-62 | the batch ends `ready` with the result's totals iff a result was obtained and persisted; otherwise `failed` with the totals unchanged; nothing else but the modification time changes |
| OptimizeTask.TaskResult | backend/apps/optimization/tasks.py:27-63 | the job returns True iff the solver found nothing or its result was persisted; otherwise False |
| OptimizeTask.OptimizeBatchTask | backend/apps/optimization/tasks.py:6-63 | for an unknown batch id the job raises and writes nothing. Otherwise it saves `optimizing` and then the final status. It returns what TaskResult says. The vehicle and driver are the owner's ones with the least key. It writes routes and stops only for a result, exactly the planned ones (indices resolved as written) when persisted, and keeps earlier writes on failure |
| OptimizeCommand.SelectedStatuses | backend/apps/core/management/commands/optimize_routes.py:36 | draft is always selected; ready is selected iff force is set; nothing else is |
| OptimizeCommand.SelectBatches | backend/apps/core/management/commands/optimize_routes.py:30-37 | with a batch id, exactly the batches with that id, whatever their status; otherwise exactly the batches whose status is selected |
| OptimizeCommand.MaxStops | backend/apps/core/management/commands/optimize_routes.py:79 | the stop limit passed to the solver is the largest of the active vehicles' limits |
| OptimizeCommand.Decide | backend/apps/core/management/commands/optimize_routes.py:45-84 | the batch report is "no active vehicles" iff there are none, then "no active drivers", then "no deliveries"; "optimized" iff the solver stage returns a non-empty route list, with its length as the count |
| OptimizeCommand.RouteAssignmentsSound | backend/apps/core/management/commands/optimize_routes.py:117-126 | each assignment names its route, a 1-based position whose index is not the depot, and the delivery `deliveries[idx - 1]` that index resolves to; conversely every non-depot position whose index is in range gives its assignment; positions strictly increase |
| OptimizeCommand.PlanRoutesShape | backend/apps/core/management/commands/optimize_routes.py:93-114 | every created route comes from a solver route with stops and uses the round-robin vehicle and driver of its position. It carries that route's distance and duration and the next key. Route orders strictly increase |
| OptimizeCommand.PlanCount | backend/apps/core/management/commands/optimize_routes.py:93-95 | one route is created per solver route that has stops |
| OptimizeCommand.PlanAssignmentsOnRoutes | backend/apps/core/management/commands/optimize_routes.py:117-124 | every assignment refers to a route this run created |
| OptimizeCommand.TotalsMatchRoutes | backend/apps/core/management/commands/optimize_routes.py:128-142 | the totals written on the batch are the sums of the created routes' distances and durations |
| OptimizeCommand.RoundRobinDistinct | backend/apps/core/management/commands/optimize_routes.py:98-99 | with no more solver routes than both vehicles and drivers, no two created routes share a vehicle or a driver |
| OptimizeCommand.AssignedAreLocated | backend/apps/core/management/commands/optimize_routes.py:117-123 | when every delivery of the batch has coordinates, every assigned delivery belongs to the batch and sits at the location the solver put at that position |
| OptimizeCommand.MarkAssigned | backend/apps/core/management/commands/optimize_routes.py:123-124 | exactly the deliveries with the given keys become `assigned`; all others stay as they were |
| OptimizeCommand.WriteAssignments | backend/apps/core/management/commands/optimize_routes.py:117-126 | walking a route returns its assignments, indices resolved as written and out-of-range ones skipped, and marks exactly those deliveries `assigned` |
| OptimizeCommand.WriteRoute | backend/apps/core/management/commands/optimize_routes.py:101-126 | writing route `i` appends exactly one route, numbered `i + 1`, with the round-robin vehicle and driver and the route's totals, and marks exactly that route's assignments (resolved as written) `assigned` |
| OptimizeCommand.WriteRoutes | backend/apps/core/management/commands/optimize_routes.py:90-129 | the routes appended are the plan's routes; the deliveries marked are the plan's assignments; the totals are those of the routes with stops |
| OptimizeCommand.OptimizeOne | backend/apps/core/management/commands/optimize_routes.py:42-158 | the report follows Decide. A batch that is not optimized leaves the store unchanged. Otherwise its old routes go with their cascade, the planned routes are added, the visited deliveries become `assigned`, and the batch becomes `ready` with its totals |
| OptimizeCommand.OptimizeRoutes | backend/apps/core/management/commands/optimize_routes.py:25-158 | an empty selection reports "no batch found" (with an id) or "no batches to optimize" (without one) and changes nothing. Otherwise there is one report per selected batch and every batch keeps its key |
| Geocoding.FullAddress | backend/apps/core/services/geocoding.py:16 | the query text is the address, city and country in that order, separated by ", " |
| Geocoding.GeocodeOsm | backend/apps/core/services/geocoding.py:36-61 | an empty hit list gives no result; a first hit with all fields gives that hit's data; a failed call or a missing field raises, and only those do |
| Geocoding.GeocodeGoogle | backend/apps/core/services/geocoding.py:64-86 | status OK with a complete first hit gives that hit; status OK with an empty list, and any other status, give no result; a result arises only that way; a failed call, a missing status, and with status OK a missing list or an incomplete first hit raise, and only those |
| Geocoding.GeocodeAddress | backend/apps/core/services/geocoding.py:11-33 | an OSM result is returned at once. Otherwise Google is asked iff a key is configured, and its result is returned; an exception from Google gives none. The result's source is the last provider asked |
| Geocoding.MissingGeometryGivesNothing | backend/apps/core/services/geocoding.py:77-79 | an OK response whose first hit lacks its geometry gives no result, after both providers were asked |
| Geocoding.DedupSpec | backend/apps/core/services/geocoding.py:114-121 | the point list keeps each given point exactly once and is unchanged when no point repeats |
| Geocoding.OsrmIndices | backend/apps/core/services/geocoding.py:126-129 | (corrected) every origin and every destination gets the index of its own point in the deduplicated list |
| Geocoding.OsrmIndicesAgreeWithoutRepeats | backend/apps/core/services/geocoding.py:127-128 | when no point repeats across origins and destinations, the request's ranges equal the corrected indices |
| Geocoding.OsrmIndicesAsWrittenDropsDestinations | backend/apps/core/services/geocoding.py:127-128 | with the same point as origin and destination, the request as written asks for no destination at all |
| Geocoding.OsrmRequestDropsCoveredDestinations | backend/apps/core/services/geocoding.py:114-128 | whenever every destination is also an origin, the request as written asks for no destination at all |
| Geocoding.CollectPoints | backend/apps/core/services/geocoding.py:114-121 | the loop with its seen-set builds the deduplicated key list |
| Geocoding.IndexListDecodes | backend/apps/core/services/geocoding.py:127-128 | the `sources`/`destinations` text splits on ';' back into the decimal index strings |
| Geocoding.OsrmOutcome | backend/apps/core/services/geocoding.py:132-141 | code "Ok" gives both matrices; any other code gives no matrix; a failed call or a missing key raises |
| Geocoding.OsrmMatrix | backend/apps/core/services/geocoding.py:111-141 | the request sent holds the deduplicated points, the first `len(origins)` positions as sources and the positions from `len(origins)` to the end of the list as destinations, as written; the answer is interpreted as OsrmOutcome says |
| Geocoding.ElementCells | backend/apps/core/services/geocoding.py:170-179 | an OK element gives its distance and duration; any other status gives infinity; an OK element lacking a value raises |
| Geocoding.GoogleCells | backend/apps/core/services/geocoding.py:167-180 | the nested loop succeeds iff every element can be read; the matrices are then the rows' distance and duration grids, cell by cell |
| Geocoding.GoogleMatrix | backend/apps/core/services/geocoding.py:144-186 | the answer is interpreted as GoogleMatrixOutcome says: status OK with readable rows gives the grids, any other status gives none, a failure or a missing status or rows raises |
| Geocoding.GetDistanceMatrix | backend/apps/core/services/geocoding.py:92-108 | OSRM's answer, including "no matrix", is returned as it is. Google is asked only when OSRM raised and a key is configured, and its interpreted answer is then returned, an exception giving none. The result's source is the last provider asked |
| Maintenance.Cleanup | backend/scripts/maintenance.py:26-86 | the counts are the location updates older than 30 days and the completed batches older than the cutoff. A dry run changes nothing. Otherwise the tables become Cleaned of the old tables. The error entry appears iff it is not a dry run and the cache has no pattern deletion, and `completed_at` appears otherwise. Without `days_to_keep` the cutoff is `DefaultDaysToKeep` (90) days before now |
| Maintenance.PurgeArchived | backend/scripts/maintenance.py:66-71 | the archived batches, their deliveries and routes are removed; a stop goes when its delivery or its route goes; a location update goes when its route goes; every other record stays |
| Maintenance.CleanedKeepsExactlyUnarchived | backend/scripts/maintenance.py:58-71 | a batch survives the clean-up iff it was there and is not a completed batch older than the cutoff |
| Maintenance.CleanedCountsAddUp | backend/scripts/maintenance.py:58-71 | the batches counted plus the batches kept are all the batches there were |
| Maintenance.CleanedStaysConsistent | backend/scripts/maintenance.py:66-71 | the deletion order leaves no dangling foreign key |
| Maintenance.CleanedIdempotent | backend/scripts/maintenance.py:49-71 | a second clean-up at the same moment deletes nothing more |
| Maintenance.Preview | backend/scripts/maintenance.py:146 | a message of up to 50 characters is listed as it is; a longer one as its first 50 characters followed by "..." |
| Maintenance.ReminderPreviewIsCut | backend/scripts/maintenance.py:130-146 | every reminder text is longer than 50 characters, so its preview is always cut |
| Maintenance.RouteNotice | backend/scripts/maintenance.py:123-162 | a route is skipped iff its driver is missing or has no phone. Its entry names that driver and phone, and a send attempt is recorded only when the first name and the stop count could be obtained |
| Maintenance.ReportsFollowSelection | backend/scripts/maintenance.py:98-165 | one report per batch delivered today that is ready or in progress, in order, each with that batch's entries |
| Maintenance.SendReminders | backend/scripts/maintenance.py:89-169 | the count of processed batches equals the number of due batches. Each report lists its batch's entries, with the stop count asked for as written; every entry is therefore an error and the count of sent notifications is 0 |
| Maintenance.NotifyBatch | backend/scripts/maintenance.py:123-162 | the inner loop lists the batch's entries, route by route, and counts the successful ones |
| Maintenance.NoticesPerReachedRoute | backend/scripts/maintenance.py:123-125 | a batch has one entry per route of it whose driver has a phone |
| Maintenance.SentCountsDelivered | backend/scripts/maintenance.py:136-152 | (corrected) the successes counted are exactly the reachable routes whose reminder the gateway accepted |
| Maintenance.AsWrittenSendsNothing | backend/scripts/maintenance.py:132 | as written, every entry is an error, nothing is counted as sent, and the gateway's behaviour is irrelevant |
| Maintenance.TotalSentBounded | backend/scripts/maintenance.py:151-152 | the count of sent notifications never exceeds the number of entries |
| ExportImport.DispatchOf | backend/apps/core/management/commands/export_import_data.py:35-43 | export runs iff the command is "export" and import iff it is "import"; anything else is reported |
| ExportImport.UserNamed | backend/apps/core/management/commands/export_import_data.py:71 | the user found has that username, or no user has it |
| ExportImport.UserWithId | backend/apps/core/management/commands/export_import_data.py:187 | a user is found iff one has that key |
| ExportImport.SelectModels | backend/apps/core/management/commands/export_import_data.py:62-65 | a model is exported iff it is a known key and, when `--models` is given, one of the listed names after Python's whitespace strip and lower-casing |
| ExportImport.SelectModelsRoundTrip | backend/apps/core/management/commands/export_import_data.py:64-65 | listing known model keys with commas selects exactly those models |
| ExportImport.ExportData | backend/apps/core/management/commands/export_import_data.py:45-97 | "user not found" iff a user is named and unknown. Otherwise there is one section per selected model, in declared order. For a named user, a section of an owned model holds exactly that user's records; every other section holds all records |
| ExportImport.ImportData | backend/apps/core/management/commands/export_import_data.py:112-228 | a missing file, an unreadable file and an unknown target user are reported, in that order. Otherwise the run is the section walk RunModels. When an exception escaped it ends rolled back and then raising (the handler's rollback request is outside the atomic block); otherwise a dry run; it commits the saved records only when neither |
| ExportImport.ImportGuarantees | backend/apps/core/management/commands/export_import_data.py:156-215 | each record is saved at most once per model. Only known models other than the user section are saved, and only records from the data. Owners are the target user or an existing user. A dry run saves nothing. A key is recorded as created iff a record with that key was saved, so a record whose save failed is tried again when its key comes up again |
| ExportImport.RunRecordsAppends | backend/apps/core/management/commands/export_import_data.py:174-204 | processing a section only appends records of that section's model |
| ExportImport.ImportRecords | backend/apps/core/management/commands/export_import_data.py:174-215 | the inner loop processes a section's records in file order, each as Step says |
| ExportImport.SavedInOrder | backend/apps/core/management/commands/export_import_data.py:159 | records are saved section by section in the dependency order |
| PollStatus.Mounted | frontend/src/hooks/useOptimizationStatus.js:5-6 | the hook starts at status "optimizing" with loading set, and a timer for the given batch and period; a period left out is `DefaultInterval` (3000 ms) |
| PollStatus.TickClearsLoading | frontend/src/hooks/useOptimizationStatus.js:9-19 | a tick clears loading iff the timer runs and the poll failed or read ready or failed. A successful poll copies the status. Without a timer, nothing changes |
| PollStatus.LoadingNeverResumes | frontend/src/hooks/useOptimizationStatus.js:13-18 | once loading is cleared it is never set again |
| PollStatus.PollingUntilUnmount | frontend/src/hooks/useOptimizationStatus.js:21-22 | the timer runs iff it ran and no unmount happened; a terminal status does not stop it |
| PollStatus.StatusFromPollsOnly | frontend/src/hooks/useOptimizationStatus.js:12 | the status changes only through successful polls |
| PollStatus.PeriodFixedForBatch | frontend/src/hooks/useOptimizationStatus.js:23 | re-rendering for the same batch never changes the polling period or the batch |
| PollStatus.StatusHook.constructor | frontend/src/hooks/useOptimizationStatus.js:4-6 | the hook's state is the mounted state |
| PollStatus.StatusHook.Poll | frontend/src/hooks/useOptimizationStatus.js:9-19 | a tick requests the batch's path iff the timer runs and updates the state as Next says |
| PollStatus.StatusHook.Rerender | frontend/src/hooks/useOptimizationStatus.js:21-23 | a re-render replaces the timer only for a different batch, as Next says; a period left out is `DefaultInterval` (3000 ms) |
| PollStatus.StatusHook.Cleanup | frontend/src/hooks/useOptimizationStatus.js:22 | the unmount stops the timer and keeps the state cells |

## Left out

- The routing solver (`RouteOptimizer`), `create_distance_matrix_from_coordinates` and `DistanceCalculator` are parameters. backend/apps/optimization/services/route_optimizer.py is a stub whose signatures match neither caller, so the solver's own output is not modelled, only how its result is consumed.
- HTTP requests, Celery queueing, the Django ORM and its SQL, `transaction.atomic`, logging and console output are out of scope. Only their observable effect on the stored records and on the returned values is modelled.
- `backup_database`, the gzip step and the argparse `main` of backend/scripts/maintenance.py are file and process I/O and are not part of this model.
- Floating-point and Decimal arithmetic are modelled with `real` and exact division. The `inf` sentinel of Google matrices is the constructor `Unreachable`.
- A malformed record or JSON structure that raises a bare `KeyError` outside the modelled keys is not modelled, and neither is an exception raised in the middle of the route loop of `optimize_routes` (for example a missing `geometry` key). Such an exception would leave partly written routes.
- OptimizeCommand.OptimizeRoutes: states the per-run outcome and the count of reports; each batch's effect is stated by `OptimizeCommand.OptimizeOne`, whose contract uses `old` and does not compose into a whole-run formula over the changing store.
- Concurrency is not modelled: the task queue runs the job concurrently with the web request, and the hook's `setInterval` timer and its asynchronous requests are reduced to a sequence of events in delivery order.
- ExportImport.ImportData: a failed `save()` is treated as a skipped record. On PostgreSQL the failure also breaks the transaction, so later statements of the same import fail too. That effect is not modelled.
- ExportImport.ImportData: building a model with a raw owner key (`model_class(**fields)`) and saving it are parameters (whether each succeeds), not Django's field conversion.
- ExportImport.ImportData: by reading alone (not executed), Django refuses an integer assigned to a foreign-key field such as `owner` with a ValueError. The build at export_import_data.py:199 is outside the `try` at :201-208, so every record with an owner would end the import as `RolledBackThenRaised`, dry runs included. The model admits this outcome through `build` but does not force it.
- Writing the export file and its `IOError` path are file I/O and are not modelled. The export ends with the collected sections.
- ExportImport.ExportData: by reading alone (not executed), the `python` serializer at export_import_data.py:92 keeps `datetime` and `Decimal` values, so `json.dump` at :102 would raise a TypeError for most models, and `except IOError` at :109 does not catch it. The model ends with the collected sections instead.
- Support.Lower: lower-cases the ASCII letters only, where Python's `str.lower()` also maps other letters. The only other character whose lower case is an ASCII letter is the Kelvin sign (to `k`), and no model key contains `k`, so `ExportImport.SelectModels` selects the same models as the source does.
- The cache's pattern deletion is reduced to whether the back end supports it.
- Time zones, `timezone.now()` and date arithmetic are integer parameters. The reminder's "today" is a day number, and the clean-up's clock is in seconds.

## Findings

| source | as written | input that shows it | evidently intended | confidence | as-written member | corrected member |
|---|---|---|---|---|---|---|
| backend/apps/optimization/tasks.py:44 | location index k is resolved as `deliveries[k - 1]` over all deliveries, while locations hold only the deliveries with coordinates (the same happens at optimize_routes.py:120) | two deliveries, the first without coordinates: location 1 is the second delivery but resolves to the first | resolve k against the deliveries that contributed a location | not executed | Locations.DeliveryAtAsWrittenMisaligned | Locations.DeliveryAtMatchesLocation |
| backend/apps/core/services/geocoding.py:127-128 | `sources` is `range(len(origins))` and `destinations` is `range(len(origins), len(all_points))` over the de-duplicated list | the same point as origin and destination gives `destinations=""` | each origin and destination indexed by its own point's position | not executed | Geocoding.OsrmIndicesAsWrittenDropsDestinations | Geocoding.OsrmIndices |
| backend/scripts/maintenance.py:132 | the stop count is `route.deliveries.count()`, but a route has no `deliveries` relation (deliveries link to routes only through stops) | any route with a driver who has a phone: the lookup raises, the entry is an error and no SMS is sent | count the route's stops | not executed | Maintenance.AsWrittenSendsNothing | Maintenance.SentCountsDelivered |
