# School van tracker: a verified model

Dafny proofs about a multi-tenant school-van tracker (NestJS services over PostgreSQL and Redis) and the
repository cache of the portfolio site it grew out of. Run `dafny verify dfyconfig.toml`.

## How it is modelled

**One store, eighteen handlers.** `Schema` holds the rows of users, vans, students, routes, trips, attendance logs and
alerts with the two Redis key families kept beside them. `Handlers` writes every handler of the trip, van,
driver and student services as the list of database and Redis calls it awaits. `Machine` lets any number of
requests be in flight: each event is one arrival, one call of one handler or one position ping of a driver, in any order, at
non-decreasing times.
Theorems that say *every interleaving* quantify over all such event sequences.

**Each handler twice.** `TripsService` and `FleetServices` are classes that update `Database` in place, statement by
statement as the services do; each method is proved equal to its list of calls run alone, and `Serial` shows that
such a run is one of the interleavings. So what is proved of interleavings holds of the methods. `TripOutcomes`,
`FleetOutcomes` and `TokenOutcomes` say, for every store and request, what each handler leaves and answers, column by
column and without the definitions of its calls; `Steps` and `FleetSteps` say the same of single steps in any state.

**What holds.** `Isolation`: school closure and write isolation hold in every interleaving. `Attendance`:
duplicate boarding logs are bounded by the number of overlapping requests, keys are never recorded twice, late
requests are refused. `Lifecycle`: the status automaton, frozen completed trips, log shape and alert balance hold in
every run in which no write takes away what another handler in flight has found out about the same trip
(`Lifecycle.ClashIff` says which writes do). `ActiveTrips`,
`ActiveLookup`, `Positions`: the Redis mirror follows the trips. `Fleet`, `FleetRaces`, `DutyRaces`, `DriverRemoval`,
`RefusedHolders`: vans, drivers and plates.

**What does not.** `Overlap` decides all pairs of overlapping trip handlers and shows, for every suitable store, traces that
leave COMPLETED, overwrite a start time, add a log to a completed trip, record any number of duplicates, log an absence
after a boarding or raise an alert too many. `Fleet.DoubleAssignmentIff`,
`FleetRaces.AssignmentRacesRemoval`, `RefusedHolders.DriverStaysOffIffHoldersBlocked`, `DutyRaces.SecondWriteDoublesIff`,
`ActiveTrips.EndTripRemovesKey`, `RouteStops.LastListReadsBackIff`, `Rotation.RevocationIsFinalIff`,
`GithubCache.RenamingWriteServesOtherIff`, `RateLimits.ChecksAreCountedIff` and `DriverConnections.StaleRemovalHidesTheLiveConnection` do the same elsewhere.

**Other components.** `Tokens`, `Rotation`, `AuthService`: refresh-token rotation with reuse detection (the pattern of
section 4.14.2 of RFC 9700) as its own machine of calls, started from any table whose rows carry their user's school.
`RateLimits`: the limiter over string keys with expiry. `RedisKeys`: SCAN in arbitrary batches. `GithubCache`,
`RouteStops`, `DriverConnections`, `Transactions`, `Slug`.

**Inputs of the model.** Clock readings, generated ids and tokens, JWT and password verdicts, GitHub's answers, the
order and batching of SCAN, the order of rows and the outcomes of transactions are parameters. The unique indexes of
the schema are modelled: breaking one is a `DatabaseError` answer.

## Where the code and its documentation disagree

- The repository's README.md, line 238, says a repeated idempotency key gets the old log. The duplicate test comes first, so the retry of
  a successful request gets Conflict (`Attendance.OldLogComesBackIff`, `Attendance.RepeatedRequestConflicts`).
- The repository's README.md, line 241, says sliding window. The code counts in fixed windows
  (`RateLimits.TwiceTheLimitPassesAtTheBoundary`).
- The plate check looks at undeleted vans of one school; the index covers all vans (`Fleet.PlateErrorIff`).

## Model

| member | source | states |
|---|---|---|
| `TripsService.TripsService.Create` | src/trips/trips.service.ts:25-86 | Run alone, creating a trip leaves the store and gives the answer of its list of calls: van of the driver, route, insertion, active key. |
| `TripsService.TripsService.Start` | src/trips/trips.service.ts:282-323 | The same for startTrip: only a NOT_STARTED trip of this driver and school starts; van and trip positions are set. |
| `TripsService.TripsService.End` | src/trips/trips.service.ts:325-369 | The same for endTrip, up to the removal of the active key. |
| `TripsService.TripsService.Mark` | src/trips/trips.service.ts:371-598 | The same for markPickup and markDrop: the duplicate test before the idempotency test, then the insertion and the positions. |
| `TripsService.TripsService.Absent` | src/trips/trips.service.ts:600-670 | The same for markAbsent: no idempotency test before the insertion. |
| `TripsService.TripsService.ActivateSos` | src/trips/trips.service.ts:672-736 | The same for activateSOS, from NOT_STARTED as well as IN_PROGRESS. |
| `TripsService.TripsService.ResolveSos` | src/trips/trips.service.ts:738-789 | The same for resolveSOS: IN_PROGRESS again, or COMPLETED with an end time, and one SOS_RESOLVED alert. |
| `TripOutcomes.CreateTripOutcome` | src/trips/trips.service.ts:25-86 | For every store: the trip is refused without an active van of this driver and school, or with a route that is not an active one of the school; otherwise the new row and the 24 hour key are written, every column given, and nothing else changes. |
| `TripOutcomes.StartTripOutcome` | src/trips/trips.service.ts:282-323 | For every store: only the driver's own NOT_STARTED trip of the school becomes IN_PROGRESS with the present time as its start, its other columns kept; the two positions last 300 seconds; otherwise NotFound and nothing changes. |
| `TripOutcomes.EndTripOutcome` | src/trips/trips.service.ts:325-369 | For every store: only the driver's own trip IN_PROGRESS becomes COMPLETED with the present time as its end, its other columns kept; positions are set and the active key goes; otherwise NotFound and nothing changes. |
| `TripOutcomes.MarkBoardingOutcome` | src/trips/trips.service.ts:371-598 | For every store: a pickup adds a row PICKED_UP and a drop a row DROPPED_OFF, with the request's school, trip, student, key and the present time; each refusal comes exactly under its condition, in the source's order, and changes nothing. |
| `TripOutcomes.MarkAbsentOutcome` | src/trips/trips.service.ts:600-670 | For every store: an absence adds a row ABSENT of the request; a used key is a database error. |
| `TripOutcomes.ActivateSosOutcome` | src/trips/trips.service.ts:672-736 | For every store: from NOT_STARTED or IN_PROGRESS the trip becomes SOS_ACTIVE with both times kept, one SOS alert names its van, and a position is stored if one came. |
| `TripOutcomes.ResolveSosOutcome` | src/trips/trips.service.ts:738-789 | For every store: from SOS_ACTIVE the trip goes on IN_PROGRESS with its times kept, or is COMPLETED with the present time as its end, and one SOS_RESOLVED alert is raised. |
| `Steps.LogsRecordTheirRequests` | src/trips/trips.service.ts:434-456 | In every interleaving, each log that is added records what a request that arrived asked for: a pickup PICKED_UP, a drop DROPPED_OFF, an absence ABSENT, with the request's school, trip, student and key, at a time of the run. |
| `Steps.StepsStampTrips` | src/trips/trips.service.ts:297-346 | In any state, no event changes more of a trip than its status and times: becoming COMPLETED sets the end to that moment, and a start time is set only to that moment and with IN_PROGRESS. |
| `Steps.EndTimeIsTheCompletion` | src/trips/trips.service.ts:338-346 | Over every clean run the end time of a trip completed in it is the time of the step that completed it. |
| `Steps.StartTimeIsTheStart` | src/trips/trips.service.ts:297-302 | And the start time of a trip started in it is the time of the step that put it IN_PROGRESS. |
| `Database.Database.FindBoarding` | src/trips/trips.service.ts:402-414 | Finds a pickup or drop of the student on the trip exactly when the log has one. |
| `Lifecycle.CleanRunsAreLawful` | src/trips/trips.service.ts:282-369 | Any number of requests in flight, each call separate: if no write takes away what another handler in flight has found out about the same trip, then in every reachable state COMPLETED holds exactly with an end time, each trip and student has absences then at most one boarding then nothing, alerts balance, and every handler still finds what it checked. |
| `Lifecycle.ClashIff` | src/trips/trips.service.ts:282-789 | The condition is exact: a write that goes through leaves what another handler has found out true if and only if it neither adds a boarding of the student the other has found not boarded nor updates the trip the other has read, but for a start before an SOS. |
| `Lifecycle.EveryStepIsLegal` | src/trips/trips.service.ts:297-346 | In such a run every single step moves a status only along the automaton, never overwrites a start time, and adds logs only while the trip is IN_PROGRESS. |
| `Lifecycle.CompletedTripIsFrozen` | src/trips/trips.service.ts:340-346 | Once COMPLETED, a trip row and the attendance log of the trip are the same at every later moment of such a run. |
| `Lifecycle.AlertsTellTheStatus` | src/trips/trips.service.ts:687-780 | Of the alerts raised by the trip handlers, SOS minus SOS_RESOLVED for a trip is one while it is SOS_ACTIVE and zero otherwise, whenever no SOS handler still owes its alert. |
| `Lifecycle.SkippedStartIsNeverMadeUp` | src/trips/trips.service.ts:297-302 | Over every clean run a trip that has left NOT_STARTED without a start time never gets one. |
| `Lifecycle.ExclusiveRunsAreClean` | src/trips/trips.service.ts:282-789 | Serving at most one request per trip at a time is enough, however other trips and fleet requests interleave. |
| `Serial.ServeIsARun` | src/trips/trips.service.ts:282-789 | A handler served alone is one of the interleavings, and a clean one. |
| `Serial.ServeKeepsLawful` | src/trips/trips.service.ts:282-789 | Serving any request alone keeps the per-trip laws. |
| `Serial.StartSkippedThroughSos` | src/trips/trips.service.ts:672-766 | Every trip that has not started can be brought to IN_PROGRESS without a start time, by an SOS and its resolution. |
| `Overlap.UndisturbedHandlerWritesLegally` | src/trips/trips.service.ts:282-346 | In every interleaving whatsoever, a handler whose trip nobody updates between its check and its write still finds an accepted status when it writes. |
| `Overlap.OnlyStartThenSosIsHarmless` | src/trips/trips.service.ts:672-700 | Of all pairs of trip updates that both read and then both write, the second write finds a status its handler accepts exactly for a start followed by an SOS. |
| `Overlap.SecondWriteFitsIff` | src/trips/trips.service.ts:282-789 | The same for any two of the seven trip handlers in any state of any run: after the first has written, the second still finds an accepted status exactly if the first only records attendance, or for a start followed by an SOS. |
| `Overlap.CompletedIsLeft` | src/trips/trips.service.ts:325-346 | For every store with a trip in progress: an end and an SOS that overlap take the trip to COMPLETED and back to SOS_ACTIVE. |
| `Overlap.CompletedIsResumed` | src/trips/trips.service.ts:738-766 | For every trip in SOS: two resolutions that overlap complete the trip and resume it with its end time set. |
| `Overlap.StartIsOverwritten` | src/trips/trips.service.ts:282-302 | For every trip not started: two starts that overlap write the start time twice. |
| `Overlap.AnyNumberOfDuplicates` | src/trips/trips.service.ts:402-465 | For every n, n overlapping pickups of one student without idempotency key leave n boarding logs. |
| `Overlap.LogAfterCompletion` | src/trips/trips.service.ts:371-465 | For every suitable store: a pickup that has made its checks when the trip is ended adds its log to the completed trip. |
| `Overlap.AbsenceAfterBoarding` | src/trips/trips.service.ts:600-670 | For every suitable store: an absence that has made its checks when the student is picked up is logged after the pickup, against the shape of the log. |
| `Overlap.TwoAlarms` | src/trips/trips.service.ts:672-736 | For every trip an SOS is possible on: two that overlap raise two alerts, and with nothing left in flight the trip counts two more SOS than SOS_RESOLVED. |
| `Attendance.OverlapBoundsDuplicates` | src/trips/trips.service.ts:402-465 | In every interleaving, if at most k boarding requests of a student on a trip are in flight at any moment, at most k boarding logs result; k = 1 is the promised one. |
| `Attendance.KeysStayUnique` | src/trips/trips.service.ts:417-442 | In every interleaving the log only grows at its end and no idempotency key is recorded twice. |
| `Attendance.LateRequestsAreRefused` | src/trips/trips.service.ts:402-414 | A request that arrives when the student is already recorded is refused and adds no row, whatever runs in between; it is never answered with the old log. |
| `Attendance.OldLogComesBackIff` | src/trips/trips.service.ts:416-431 | The old log is returned exactly when the key is known and this student has no boarding on this trip; it is then the log of another student, another trip or an absence. The repository's README.md, line 238, promises it for every repeated key. |
| `Attendance.RepeatedRequestConflicts` | src/trips/trips.service.ts:402-431 | Repeating the request that created a boarding log gives Conflict and changes nothing. |
| `PickupCounts.PickupCountIsHeadcountIff` | src/trips/trips.service.ts:133-148 | Over every clean run pickupCount is the number of students recorded as boarded plus the number of absence rows, so it is the head count exactly when no absence was recorded. |
| `ActiveTrips.UnfinishedTripsAreKeyed` | src/trips/trips.service.ts:76 | After every clean run each trip that is not COMPLETED has a key of its van that lasts until 24 hours after its creation, or its creator is about to set it. |
| `ActiveTrips.EndTripRemovesKey` | src/trips/trips.service.ts:360 | The last call of endTrip leaves the trip without a key, and over every continuation for good if and only if no create of that trip is still to set it: a create slower than start and end keys the ended trip again. |
| `ActiveTrips.StaysUnkeyedIff` | src/trips/trips.service.ts:76 | In any state a trip without key stays without one over every continuation if and only if its creator is not still to set it. |
| `ActiveTrips.EndedTripStaysUnkeyed` | src/database/redis/redis.service.ts:269-315 | In every interleaving a trip without key and without creator never gets one again. |
| `ActiveTrips.ResolvedTripKeepsItsKey` | src/trips/trips.service.ts:753-780 | A trip completed by resolveSOS keeps whatever key it had. |
| `ActiveLookup.LookupFollowsTheTrips` | src/database/redis/redis.service.ts:284-308 | For every clean run and every batching of SCAN: a null getActiveTrip means every unfinished trip of the van is 24 hours old or just being created; otherwise the answer is a live key of that van. |
| `ActiveLookup.EndedTripIsNeverFound` | src/database/redis/redis.service.ts:284-315 | In every interleaving getActiveTrip never returns a trip endTrip has finished. |
| `ActiveLookup.WritesKeepTheMirror` | src/database/redis/redis.service.ts:269-315 | Setting and removing the text keys is setting and removing the trip's entry, and no other. |
| `Positions.LocationIsTheLatestReport` | src/trips/trips.service.ts:304-357 | At any moment of every interleaving with drivers' pings, the position cached for an id is that of the latest start, end, pickup, drop or located SOS step or ping that reported for it, if younger than the time to live, and none otherwise. |
| `Positions.OtherSchoolsMoveNoPosition` | src/websocket/gateway/socket.gateway.ts:231-247 | In every interleaving of requests and pings of other schools, a school's cached positions are unchanged, as long as no id is both a trip's and a van's. |
| `Isolation.ReferencesStayInSchool` | src/vans/vans.service.ts:273-315 | In every interleaving of all handlers, van-driver, student-van, student-parent, trip-van, trip-driver, trip-route, log, alert and active-key references stay inside one school, and what each handler has learnt stays true. |
| `Isolation.OtherSchoolsTouchNothing` | src/trips/trips.service.ts:25-789 | In every interleaving of requests and pings of other schools, a school's users, vans, students, trips, logs, alerts and active keys are unchanged. |
| `FleetServices.VansService.Create` | src/vans/vans.service.ts:18-105 | Run alone, does and answers what its list of calls does; a plate in use elsewhere is a database error. |
| `FleetServices.VansService.Update` | src/vans/vans.service.ts:243-369 | The same for update: an empty or unchanged plate skips the plate check, a missing driver keeps the one read. |
| `FleetServices.VansService.Remove` | src/vans/vans.service.ts:371-394 | The same for remove: soft delete, off duty, driver kept. |
| `FleetServices.VansService.Assign` | src/vans/vans.service.ts:396-463 | The same for assignDriver: van, driver, driver free, write. |
| `FleetServices.VansService.Unassign` | src/vans/vans.service.ts:465-497 | The same for unassignDriver. |
| `FleetServices.DriversService.Create` | src/drivers/drivers.service.ts:28-65 | The same for a new driver; the email is unique over all schools. |
| `FleetServices.DriversService.Update` | src/drivers/drivers.service.ts:130-173 | The same for update of a driver. |
| `FleetServices.DriversService.Remove` | src/drivers/drivers.service.ts:175-205 | The same for remove: soft delete, then off every van of the school. |
| `FleetServices.StudentsService.Create` | src/students/students.service.ts:14-88 | The same for a new student: active parent and active van of the school. |
| `FleetServices.StudentsService.Update` | src/students/students.service.ts:167-249 | The same for update: a new van must be active, and the old van's other students are taken off it. |
| `FleetServices.StudentsService.Remove` | src/students/students.service.ts:251-275 | The same for remove: soft delete and off the van. |
| `FleetOutcomes.CreateVanOutcome` | src/vans/vans.service.ts:18-105 | For every store: the four answers of a new van each exactly under its condition, and the new row with every column. |
| `FleetOutcomes.UpdateVanOutcome` | src/vans/vans.service.ts:243-369 | For every store: the five answers of an update each exactly under its condition, and the row it leaves with every column; nothing else changes. |
| `FleetOutcomes.RemoveVanOutcome` | src/vans/vans.service.ts:371-394 | For every store: a van of the school becomes inactive and deleted and keeps its plate and driver. |
| `FleetOutcomes.AssignDriverOutcome` | src/vans/vans.service.ts:396-463 | For every store: the van gets the driver exactly if it is of the school and not deleted, the driver is an active one of the school, and no other van on duty in the school has that driver. |
| `FleetOutcomes.UnassignDriverOutcome` | src/vans/vans.service.ts:465-497 | For every store: the van loses its driver, a van without one is a bad request. |
| `FleetOutcomes.CreateDriverOutcome` | src/drivers/drivers.service.ts:28-65 | For every store: an email in use in the school is a conflict, one in use elsewhere a database error; otherwise the new row with every column. |
| `FleetOutcomes.UpdateDriverOutcome` | src/drivers/drivers.service.ts:130-173 | For every store: only the driver's active column changes, as asked. |
| `FleetOutcomes.RemoveDriverOutcome` | src/drivers/drivers.service.ts:175-205 | For every store: the driver becomes inactive and deleted; the vans of the school it had lose their driver and nothing else, and every other van is the same row. |
| `FleetOutcomes.CreateStudentOutcome` | src/students/students.service.ts:14-88 | For every store: without an active parent of the school or with a van that is not an active one of the school a conflict; otherwise the new row with the parent and van asked for. |
| `FleetOutcomes.UpdateStudentOutcome` | src/students/students.service.ts:167-249 | For every store: the student's van and active column change as asked; on a change of van every other student of the school leaves the old van, and no one else changes. |
| `FleetOutcomes.RemoveStudentOutcome` | src/students/students.service.ts:251-275 | For every store: the student becomes inactive and deleted and leaves its van. |
| `FleetSteps.StepsOnVans` | src/vans/vans.service.ts:305-318 | In any state, whatever else is in flight: the row every call leaves of every van, and the van it adds, with every column. |
| `FleetSteps.ClearingTouchesOnlyItsDriver` | src/drivers/drivers.service.ts:199-202 | In any state the clearing write of a removal takes the driver off its vans of the school and changes no other van and no other column. |
| `FleetSteps.StepsOnUsers` | src/drivers/drivers.service.ts:189-194 | The same as for vans, for users. |
| `FleetSteps.StepsOnStudents` | src/students/students.service.ts:196-219 | The same for students: besides its own handlers, only the move of another student off the van it was read on changes one. |
| `Text.CasesMeet` | src/vans/vans.service.ts:262 | Upper and lower case leave no letter of the other case, change nothing but letters, and determine each other. |
| `Fleet.FleetRuns` | src/vans/vans.service.ts:243-463 | Over every serial run of all handlers: school closure, no van at a deleted driver, upper-case and distinct plates; and one van on duty per driver if creates carry no driver and updates that put a van on duty name its driver. |
| `DutyRaces.UncrossedRunsKeepOneVan` | src/vans/vans.service.ts:273-316 | In every interleaving of such requests in which no write of a van crosses what another handler has seen, no two vans on duty share a driver in any reachable state. |
| `DutyRaces.ApartRunsAreUncrossed` | src/vans/vans.service.ts:243-441 | Keeping apart van handlers of the same van and van handlers that hold the same driver is enough for that. |
| `DutyRaces.CrossesIff` | src/vans/vans.service.ts:295-315 | A write crosses another handler exactly when what that one saw no longer holds afterwards. |
| `DutyRaces.WriteDoublesIff` | src/vans/vans.service.ts:306-316 | A write of a driver breaks the rule exactly when the plate is not refused, the van comes out on duty and another van on duty has the driver by then. |
| `DutyRaces.SecondWriteDoublesIff` | src/vans/vans.service.ts:423-441 | Of two handlers at their writes, the second breaks the rule exactly when the first crosses it and it goes through with its van on duty. |
| `DutyRaces.StaleClaimDoubles` | src/vans/vans.service.ts:315 | From any state with a handler in flight whose finding is out of date and whose write will go through, finishing that handler breaks the rule. |
| `DutyRaces.AssignmentsRace` | src/vans/vans.service.ts:423-441 | For every suitable store two overlapping assignments leave one driver with two vans on duty. |
| `DutyRaces.WriteBackRace` | src/vans/vans.service.ts:315 | For every suitable store an update that names no driver writes back the driver it read after another update has put the van on duty under its own: two handlers that never hold the same driver break the rule. |
| `Fleet.DoubleAssignmentIff` | src/vans/vans.service.ts:45-65 | A request served alone gives a driver a second van on duty exactly when it passes its guards and is a create with a busy driver or an update that reactivates without naming one. |
| `Fleet.PlateErrorIff` | src/vans/vans.service.ts:19-30 | Creating a van ends in a raw database error exactly when the checks pass and the plate belongs to a deleted van or to another school. |
| `Fleet.UpdatePlateErrorIff` | src/vans/vans.service.ts:257-271 | An update does exactly when its other checks pass and another van has the plate that the service did not look for, as it was empty or unchanged, or that only deleted vans or vans of other schools have. |
| `Fleet.MovingOneStudentClearsTheVan` | src/students/students.service.ts:196-206 | Moving one student takes every other student of the school off the old van and touches nobody else. |
| `FleetRaces.PlatesSurviveInterleaving` | src/vans/vans.service.ts:257-271 | In every interleaving plates stay upper-case and distinct. |
| `FleetRaces.AssignmentRacesRemoval` | src/vans/vans.service.ts:408-441 | For every store: an assignment that has made its checks before the driver is removed leaves the van pointing at the deleted driver. |
| `DriverRemoval.DeletedDriversLeaveTheirVans` | src/drivers/drivers.service.ts:189-202 | In every interleaving in which no van handler holds a driver at the moment the driver is cleared off its vans, a van points at a deleted driver only between the two writes of the removal, and never once nothing is in flight. |
| `DriverRemoval.ClearingLeavesGone` | src/drivers/drivers.service.ts:196-202 | The clearing write leaves the deleted driver on no van, and the same handlers holding it. |
| `DriverRemoval.ClearedDriverStaysOffIff` | src/drivers/drivers.service.ts:189-202 | From any state in which a deleted driver is on no van, every continuation keeps it off all vans if no van handler in flight holds it, and only if none holds it whose plate the database takes; if and only if, when no holder waits for a plate that is refused. |
| `RefusedHolders.DriverStaysOffIffHoldersBlocked` | src/vans/vans.service.ts:243-318 | The same with plates that are refused as things stand: every continuation keeps the driver off all vans if each holder is after a plate that a deleted van has for good, and only if each is after a plate that a deleted van has, since any other plate can be freed; if and only if, when no update in flight read a van that is now deleted to give it another plate. |
| `AuthServices.AuthService.Refresh` | src/auth/services/auth.service.ts:134-244 | Run alone: unknown, expired, revoked, reused, deactivated in this order; otherwise one token is consumed and one stored, or a database error leaves it consumed. |
| `AuthServices.AuthService.Logout` | src/auth/services/auth.service.ts:249-273 | Run alone: the row is revoked and used when token, user and school all match. |
| `AuthServices.AuthService.ChangePassword` | src/auth/services/auth.service.ts:347-382 | Run alone: the user must be of the school, the password right; then all its rows of the school are revoked. |
| `AuthServices.ExpirationReadsBack` | src/auth/services/auth.service.ts:504-520 | A written numeral and unit read back as its seconds, minutes, hours or days, and a text is read exactly when it is a numeral and a unit. |
| `TokenOutcomes.RefreshOutcome` | src/auth/services/auth.service.ts:134-244 | For every table: each refusal exactly under its condition and without a change, a used token revokes the user's rows of the school and no others, and a live one is marked used and its successor stored to expire after the lifetime. |
| `TokenOutcomes.RefreshIsGrantedIff` | src/auth/services/auth.service.ts:134-244 | A refresh is granted if and only if the token is genuine, known, unexpired, unused and not revoked, its user active and the new token unused. |
| `TokenOutcomes.LogoutOutcome` | src/auth/services/auth.service.ts:249-273 | For every table: the given row becomes revoked and used if token, user and school match, and nothing else changes. |
| `TokenOutcomes.LogoutIsFinalIff` | src/auth/services/auth.service.ts:249-273 | After a logout, with anything else in flight, the token is never refreshed again in any continuation if and only if no refresh of it had passed its checks. |
| `TokenOutcomes.ChangePasswordOutcome` | src/auth/services/auth.service.ts:347-382 | For every table: Done exactly for a known user of the school with the right password, and then that user's rows of the school are revoked and no others. |
| `TokenOutcomes.PasswordChangeIsFinalIff` | src/auth/services/auth.service.ts:347-382 | After a password change none of the user's tokens is refreshed again nor gets a descendant, in any continuation, if and only if no refresh of one had passed its checks. |
| `TokenOutcomes.GrantsAreEarned` | src/auth/services/auth.service.ts:151-222 | In every run a refresh that was granted had read its token when it was unexpired, unused and not revoked, and after that had found its user active. |
| `Rotation.MarksAreNeverCleared` | src/auth/services/auth.service.ts:220-263 | In every interleaving rows are never removed or handed over and used and revoked marks never cleared. |
| `Rotation.RowsCarryTheirSchool` | src/auth/services/auth.service.ts:442-460 | In every interleaving each row carries its user's school and each granted token belongs to the user of the one it replaced. |
| `Rotation.RevocationReachesEveryRow` | src/auth/services/auth.service.ts:469-473 | A revocation for a user and the user's school leaves no row of the user unrevoked. |
| `Rotation.RevocationIsFinalIff` | src/auth/services/auth.service.ts:151-244 | After a revocation no token that existed and none descended from it is ever refreshed, over every continuation, if and only if no refresh of one of them had already passed the check of its row. |
| `Rotation.ReplayRevokesIff` | src/auth/services/auth.service.ts:163-190 | Presenting a consumed token revokes all of the user's tokens exactly when it has neither expired nor been revoked; otherwise nothing changes. |
| `Rotation.FamilyBelongsToOneUser` | src/auth/services/auth.service.ts:179-188 | All descendants of a token belong to its user, so the replay of any ancestor reaches them. |
| `Rotation.GrantedTokensAreUsed` | src/auth/services/auth.service.ts:220-224 | A token that was ever exchanged is marked used, so its next use is a replay. |
| `Rotation.OverlapBoundsRedemptions` | src/auth/services/auth.service.ts:179-224 | In every interleaving, with at most k refreshes of a token in flight at a time it is redeemed at most k times: once when they do not overlap. |
| `Rotation.OverlapIsReached` | src/auth/services/auth.service.ts:179-224 | For every n, n refreshes of one token that all read its row first are all redeemed. |
| `Rotation.RisesIff` | src/auth/services/auth.service.ts:220-230 | One event raises a user's live tokens plus those owed, and then by one, exactly when it stores a row for the user from outside or consumes a token of the user that is no longer live. |
| `Rotation.LiveTokensAreBounded` | src/auth/services/auth.service.ts:220-230 | Over every run that number never exceeds its start by more than the events of those two kinds. |
| `Rotation.ServeNeverAddsLive` | src/auth/services/auth.service.ts:220-230 | Run alone, no handler raises any user's number of live tokens. |
| `Rotation.RevocationInBetweenAdds` | src/auth/services/auth.service.ts:193-230 | For every redeemable token: a password change between check and mark leaves the user with no live token, and the refresh then stores one. |
| `Rotation.ServeIsARun` | src/auth/services/auth.service.ts:134-382 | A handler run alone is one of the interleavings. |
| `RateLimits.RateLimiter.CheckRateLimit` | src/database/redis/redis.service.ts:204-224 | Counts the hit, at the time Redis executes it, in the window of its clock reading, sets the time to live on the first, and judges the new count. |
| `RateLimits.RateLimiter.GetRateLimitStatus` | src/database/redis/redis.service.ts:235-257 | Reports the counter of the current window without counting. |
| `RateLimits.CheckCategory` | src/rate-limit/rate-limit.service.ts:28-103 | The three category checks: their prefix, limit and retryAfter. |
| `RateLimits.CountersAreSeparate` | src/database/redis/redis.service.ts:210 | Two checks use one counter exactly when category, identifier and window agree, even when identifiers contain colons. |
| `RateLimits.CountersAreExact` | src/database/redis/redis.module.ts:171-179 | In whatever order the checks are executed, a counter that has not expired holds exactly the checks of its window, and expires a window's length after the first of them. |
| `RateLimits.ChecksAreCountedIff` | src/database/redis/redis.module.ts:171-179 | Every check is counted after all earlier ones of its window if and only if none is executed a window's length or more after another of its window; one that is finds its counter expired and restarts it from 1. |
| `RateLimits.PromptChecksAreInTime` | src/database/redis/redis.module.ts:171-179 | Checks executed before their window is over meet that condition in any order. |
| `RateLimits.AnswersCountTheWindow` | src/database/redis/redis.module.ts:174-185 | Under that condition a check passes exactly when fewer than the limit of its own identifier and category were executed before it in its window; remaining and resetAt are given too. |
| `RateLimits.WindowPassesTheFirst` | src/database/redis/redis.module.ts:181-183 | An aligned window lets through exactly the first min(count, limit) checks. |
| `RateLimits.CategoriesHaveTheirLimits` | src/rate-limit/rate-limit.service.ts:28-103 | So an aligned window lets through the first min(count, auth limit) logins, min(count, gps limit) pings and min(count, general limit) others. |
| `RateLimits.IntervalIsBounded` | src/database/redis/redis.service.ts:209-224 | Any half-open interval of n window lengths lets through at most (n + 1) limits. |
| `RateLimits.TwiceTheLimitPassesAtTheBoundary` | README.md:241 | For every limit and window, twice the limit passes within two milliseconds around a boundary: the limiter is not the sliding window the repository's README.md names. |
| `RateLimits.StatusReportsTheLoad` | src/database/redis/redis.service.ts:235-257 | A status asked later in the window reports what has been counted and what remains. |
| `RateLimits.ResetIsTheWindowsEnd` | src/database/redis/redis.module.ts:183 | resetAt is the end of the window, or now when now is the start of one. |
| `RateLimits.WaitingReachesAFreshWindowIff` | src/rate-limit/rate-limit.service.ts:43-48 | Whatever the second clock reading, a refused caller who waits retryAfter reaches a fresh window exactly when it was not refused on a boundary or the window is over by that reading; the wait ends less than a second after resetAt and is positive exactly while resetAt is ahead. |
| `RedisKeys.RedisService.GetVanLocations` | src/database/redis/redis.service.ts:127-161 | The pipelined read gives exactly what reading each van alone gives. |
| `RedisKeys.RedisService.GetVanLocationsByKeys` | src/database/redis/redis.module.ts:119-154 | The scan-and-filter form gives the coordinates of exactly what reading each van alone gives, without school and accuracy, when payloads name the van of their key. |
| `RedisKeys.RedisService.GetSchoolVanLocations` | src/database/redis/redis.service.ts:167-196 | For every batching and repetition of SCAN the result is exactly the live positions of the school. |
| `RedisKeys.RedisService.GetActiveTrip` | src/database/redis/redis.service.ts:284-308 | For every batching: a live active trip of the van, or null when it has none. |
| `RedisKeys.RedisService.DeletePattern` | src/database/redis/redis.service.ts:409-423 | For every batching exactly the matching keys are gone, and the result is how many there were. |
| `RedisKeys.RedisService.SetVanLocation` | src/database/redis/redis.service.ts:68-96 | Writes the payload under its own van's key, so payloads keep naming their key; recordLocation passes a trip id here. |
| `RedisKeys.SetThenGet` | src/database/redis/redis.service.ts:68-125 | A stored position is read back until its time to live is over, and no other van's position changes. |
| `RedisKeys.RedisService.SetActiveTrip` | src/database/redis/redis.service.ts:269-279 | Writes the trip's payload under its own key for 24 hours. |
| `RedisKeys.KeysOfVans` | src/database/redis/redis.service.ts:168 | The van pattern matches exactly the keys of vans, and the part under the star is the van. |
| `RedisKeys.KeysOfTrips` | src/database/redis/redis.service.ts:285 | The same for trip keys. |
| `DriverConnections.LookupFindsTheCurrent` | src/database/redis/redis.service.ts:322-379 | Over every run in which connection ids are not shared, a driver's lookup finds the connection it set last, for an hour, until any connection of the driver is removed. |
| `DriverConnections.ConnectionsLastAnHour` | src/database/redis/redis.service.ts:322-341 | A connection is found for 3600 seconds after it was set; drivers on other connections keep theirs. |
| `DriverConnections.StaleRemovalHidesTheLiveConnection` | src/database/redis/redis.service.ts:346-356 | Removing an old connection after a reconnect hides the live one. |
| `DriverConnections.ConnectionStore.GetDriverConnection` | src/database/redis/redis.service.ts:361-379 | Follows the reverse key to a live record or answers null. |
| `GithubCache.CachedReposAreCurrent` | src/controllers/github.controller.ts:30-121 | Each handler reads and writes the document in separate steps. Over every run in which an update to another name is alone from its read to its write, repositories answered from the cache are what GitHub answered a request for the configured name less than the cache duration ago, also when the name was set to empty and back. |
| `GithubCache.OtherNameIsServedIff` | src/services/github.service.ts:86-114 | In every state, some course of the requests in flight and to come serves one name's repositories under another if and only if the cache does so already or a request for another name is in flight. |
| `GithubCache.RenamingWriteServesOtherIff` | src/controllers/github.controller.ts:107-111 | The write of a new name leaves another name's repositories to be served under it if and only if such repositories are cached and fresh at the write, or a request for another name is in flight. |
| `GithubCache.CachedAtTheWrite` | src/controllers/github.controller.ts:101-105 | If anything is cached when an update comes to its write, either the cache was filled since the update's own invalidation or the update invalidated nothing. |
| `GithubCache.FilledBeforeTheWrite` | src/controllers/github.controller.ts:92-121 | For any two names: a request that fills the cache between the invalidation and the write of an update gets the old name's repositories served under the new one. |
| `GithubCache.WrittenBack` | src/controllers/github.controller.ts:92-121 | For any two names: an update that names the stored one, invalidates nothing and writes it back after another update and a filled cache, gets the other name's repositories served under it. |
| `GithubCache.LateAnswerIsServedIff` | src/controllers/github.controller.ts:92-121 | An update to a new name that runs while a request waits serves the late answer exactly when that answer is neither failed nor empty, and then under another name exactly when the request asked for another. |
| `GithubCache.GithubController.GetGithubRepos` | src/controllers/github.controller.ts:30-67 | Answers empty, from the cache or from GitHub and fills the cache, as its steps of the machine run one after the other do. |
| `GithubCache.GithubController.UpdateGithubConfig` | src/controllers/github.controller.ts:92-121 | Clears the cache on a new non-empty name before it stores the cast name, as its steps of the machine run one after the other do; without a document it fails. |
| `GithubCache.CastTwice` | src/models/Github.ts:15-20 | Trimming and lowering a stored name changes nothing. |
| `Text.TrimCutsSpaces` | src/models/Github.ts:15-20 | Trimming cuts white space off both ends of a text and nothing else. |
| `RouteStops.RoutesService.Create` | src/routes/routes.service.ts:14-58 | The new route's stored list is the one given; all others are kept. |
| `RouteStops.RoutesService.Update` | src/routes/routes.service.ts:112-179 | The route's stored list is replaced if one is given; all others are kept. |
| `RouteStops.RoutesService.GetStops` | src/routes/routes.service.ts:211-238 | For every order the database answers ties and keeps rows in, the list last written comes back in order. |
| `RouteStops.StoredListReadsBack` | src/routes/routes.service.ts:224-237 | Rows numbered from 1, in whatever order they are kept, have one ascending arrangement: the list. |
| `RouteStops.LastListReadsBackIff` | src/routes/routes.service.ts:14-158 | For every run of any number of creates and updates in flight, the stops found are those of all lists inserted on the route since it was last emptied, and they are the list inserted last exactly when the others are empty. |
| `RouteStops.SeparateUpdatesReadBack` | src/routes/routes.service.ts:136-158 | If no update empties the route while a create or another update is about to insert its stops, the last list reads back. |
| `RouteStops.OverlappingUpdatesKeepBoth` | src/routes/routes.service.ts:136-158 | The run in which two updates both delete before either creates leaves the stops of both. |
| `RouteStops.CreateOverlapsUpdate` | src/routes/routes.service.ts:14-39 | A new route that is updated before its create has inserted the stops keeps the stops of both and reads back neither list. |
| `Transactions.Transaction` | src/database/prisma/prisma.service.ts:55-96 | For every sequence of outcomes: runs stop at the first that is not a serialization failure or deadlock or at the limit, one commit at most, 100 * (2^k - 2) ms slept over k runs, and the final throw is reached only with a limit of zero. |
| `Transactions.TransientIff` | src/database/prisma/prisma.service.ts:75-84 | The two codes, and the two texts wherever they stand in the message, are retried, and nothing else is. |
| `Slug.SlugifyMakesSlugs` | src/utils/slug.ts:2-14 | For every text the result is empty or lower-case words joined by single dashes. |
| `Slug.SlugsAreTheFixedPoints` | src/utils/slug.ts:2-14 | slugify is idempotent, and leaves a text alone exactly when it is such a slug. |
| `Slug.SlugifyIsOnePass` | src/utils/slug.ts:2-14 | For every text the chain of replacements is one pass: the letters, digits and underscores in order, one dash wherever white space or a dash stood between two of them, nothing for other characters. |
| `Slug.WordsAreJoined` | src/utils/slug.ts:9-10 | Any two slugs with white space between them come back joined by a dash, with other marks between them by nothing. |

## Left out

- TripsService.Create, Start, End, Mark, Absent, ActivateSos, ResolveSos: columns no check reads (names, notes, coordinates in rows, verifiedBy, scheduled times), push notifications and the async van-position column are not modelled; a handler run alone reads the clock once.
- TripsService.Absent: the unique index on the key answers a repeated key with a database error, as the code has no test there.
- FleetServices.VansService.Create and Update: VanRoute rows are not modelled; their route ids are never checked.
- Database.Database.FindBoarding: no handler deletes a log, so the deletedAt tests on logs are not modelled.
- Positions.LocationIsTheLatestReport: a ping is an event for any van of the driver's school, which covers the vans a session may report for; the position columns a ping writes to the van row are not modelled. Trip ids and van ids share the keys, so the result is a van's only while they are disjoint.
- Lifecycle.AlertsTellTheStatus: alerts created through AlertsService, which may carry a trip and the type SOS, are not modelled.
- RefusedHolders.DriverStaysOffIffHoldersBlocked: while an update in flight read a van before the van was deleted and will give it another plate, it is not decided whether that update goes through.
- Isolation.OtherSchoolsTouchNothing: routes are changed by no handler of this machine.
- Rotation.RevocationIsFinalIff: login and register never store a token row, so rows outside these handlers appear only as Issue events.
- AuthService: the Redis copy of refresh tokens is written and cleared but never read by refresh; hashing and JWT signing are verdicts.
- RateLimits.AnswersCountTheWindow: INCR and the EXPIRE of the first hit are one step; a Redis error lets the request through (fail open) and is not modelled, and RATE_LIMIT_TTL is taken as at least one second.
- RedisKeys.RedisService.DeletePattern: the store is quiescent during a scan.
- RedisKeys.RedisService.GetActiveTrip: a malformed value under the trip pattern would make it answer null; only setActiveTrip writes there.
- Slug.SlugifyMakesSlugs: Unicode decomposition, removal of diacritics and lower-casing are one function of which only two facts are assumed.
- Upper and lower case of plates, emails and user names are ASCII.
- GithubCache: userCache is filled by no controller; only its invalidation is reached, and it is not modelled.
- RouteStops.RoutesService: assignVan, unassignVan and the deletion of van-route rows on remove.
- Transactions.Transaction: timeouts and isolation levels.
- Guards, decorators, interceptors, DTO validation, Swagger, health checks, WebSocket gateway, exports, alerts listing and the toDto mappers: plumbing or one-branch decisions.
- The portfolio CMS besides the GitHub cache: single-document database calls.
- archiveLocations: a placeholder that returns 0.
- The status CANCELLED is in the enum and no handler sets it.
