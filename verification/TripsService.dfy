// The trip handlers as they run when nothing else does: checks on the stored rows, then updates in
// place. Each is proved to do exactly what its list of calls does, and to answer the same.
module TripsService {
  import opened Options
  import opened Schema
  import opened Handlers
  import opened Database

  class TripsService {
    const db: Database

    constructor (db: Database)
      ensures this.db == db
    {
      this.db := db;
    }

    method Create(schoolId: Id, vanId: Id, routeId: Option<Id>, driverId: Id, now: nat, newId: Id) returns (r: Response)
      modifies db
      ensures (db.View(), r) == Serve(old(db.View()), CreateTrip(schoolId, driverId, vanId, routeId), now, newId)
    {
      ghost var w, th := db.View(), Opened(CreateTrip(schoolId, driverId, vanId, routeId));
      if !(vanId in db.vans && db.vans[vanId].school == schoolId && db.vans[vanId].active &&
           db.vans[vanId].driver == Some(driverId) && !db.vans[vanId].deleted) {
        return NotFound;
      }
      th := Went(w, th, w, th.locals.(van := vanId), now, newId);
      if routeId.Some? {
        var id := routeId.value;
        if !(id in db.routes && db.routes[id].school == schoolId && db.routes[id].active && !db.routes[id].deleted) {
          return NotFound;
        }
      }
      th := Went(w, th, w, th.locals, now, newId);
      if newId in db.trips { return DatabaseError; }
      var trip := Trip(schoolId, vanId, routeId, driverId, NOT_STARTED, None, None, now, false);
      db.trips := db.trips[newId := trip];
      th := Went(w, th, db.View(), th.locals.(made := Some(newId), answer := TripRow(trip)), now, newId);
      w := db.View();
      db.active := db.active[newId := ActiveKey(vanId, schoolId, now + ACTIVE_TRIP_TTL)];
      th := Went(w, th, db.View(), th.locals, now, newId);
      return TripRow(trip);
    }

    method Start(schoolId: Id, tripId: Id, loc: Location, driverId: Id, now: nat) returns (r: Response)
      modifies db
      ensures (db.View(), r) == Serve(old(db.View()), StartTrip(schoolId, driverId, tripId, loc), now, 0)
    {
      ghost var w, th := db.View(), Opened(StartTrip(schoolId, driverId, tripId, loc));
      var trip := db.FindTrip(schoolId, driverId, tripId, {NOT_STARTED});
      if trip.None? { return NotFound; }
      th := Went(w, th, w, th.locals.(van := trip.value.van), now, 0);
      var updated := db.trips[tripId].(status := IN_PROGRESS, actualStart := Some(now));
      db.trips := db.trips[tripId := updated];
      th := Went(w, th, db.View(), th.locals.(answer := TripRow(updated)), now, 0);
      w := db.View();
      db.SetVanLocation(trip.value.van, schoolId, loc, now);
      th := Went(w, th, db.View(), th.locals, now, 0);
      w := db.View();
      db.SetVanLocation(tripId, schoolId, loc, now);
      th := Went(w, th, db.View(), th.locals, now, 0);
      return TripRow(updated);
    }

    method End(schoolId: Id, tripId: Id, loc: Location, driverId: Id, now: nat) returns (r: Response)
      modifies db
      ensures (db.View(), r) == Serve(old(db.View()), EndTrip(schoolId, driverId, tripId, loc), now, 0)
    {
      ghost var w, th := db.View(), Opened(EndTrip(schoolId, driverId, tripId, loc));
      var trip := db.FindTrip(schoolId, driverId, tripId, {IN_PROGRESS});
      if trip.None? { return NotFound; }
      th := Went(w, th, w, th.locals.(van := trip.value.van), now, 0);
      r := Complete(schoolId, tripId, loc, trip.value.van, driverId, now, th);
    }

    // The part of endTrip after the check.
    method Complete(schoolId: Id, tripId: Id, loc: Location, vanId: Id, driverId: Id, now: nat, ghost checked: Thread)
      returns (r: Response)
      requires checked.req == EndTrip(schoolId, driverId, tripId, loc) && checked.k == 1 && checked.locals.van == vanId
      requires tripId in db.trips
      modifies db
      ensures (db.View(), r) == Drive(old(db.View()), checked, now, 0)
    {
      ghost var w, th := db.View(), checked;
      var updated := db.trips[tripId].(status := COMPLETED, actualEnd := Some(now));
      db.trips := db.trips[tripId := updated];
      th := Went(w, th, db.View(), th.locals.(answer := TripRow(updated)), now, 0);
      w := db.View();
      db.SetVanLocation(vanId, schoolId, loc, now);
      th := Went(w, th, db.View(), th.locals, now, 0);
      w := db.View();
      db.SetVanLocation(tripId, schoolId, loc, now);
      th := Went(w, th, db.View(), th.locals, now, 0);
      w := db.View();
      db.active := db.active - {tripId};
      th := Went(w, th, db.View(), th.locals, now, 0);
      return TripRow(updated);
    }

    // markPickup and markDrop: the duplicate test comes before the idempotency test.
    method Mark(schoolId: Id, tripId: Id, studentId: Id, drop: bool, key: Option<Id>, loc: Location, driverId: Id, now: nat)
      returns (r: Response)
      modifies db
      ensures (db.View(), r) == Serve(old(db.View()), MarkBoarding(schoolId, driverId, tripId, studentId, drop, key, loc), now, 0)
    {
      ghost var w, th := db.View(), Opened(MarkBoarding(schoolId, driverId, tripId, studentId, drop, key, loc));
      var trip := db.FindTrip(schoolId, driverId, tripId, {IN_PROGRESS});
      if trip.None? { return NotFound; }
      th := Went(w, th, w, th.locals.(van := trip.value.van), now, 0);
      var rider := db.FindRider(schoolId, studentId, trip.value.van);
      if !rider { return BadRequest; }
      th := Went(w, th, w, th.locals, now, 0);
      var existing := db.FindBoarding(tripId, studentId);
      if existing { return Conflict; }
      th := Went(w, th, w, th.locals, now, 0);
      if key.Some? && KeyUsed(db.logs, key.value) {
        return LogRow(FindKey(db.logs, key.value));
      }
      th := Went(w, th, w, th.locals, now, 0);
      r := Record(schoolId, tripId, studentId, drop, key, loc, trip.value.van, driverId, now, th);
    }

    // The part of markPickup and markDrop after the checks.
    method Record(schoolId: Id, tripId: Id, studentId: Id, drop: bool, key: Option<Id>, loc: Location, vanId: Id,
                  driverId: Id, now: nat, ghost checked: Thread)
      returns (r: Response)
      requires checked.req == MarkBoarding(schoolId, driverId, tripId, studentId, drop, key, loc)
      requires checked.k == 4 && checked.locals.van == vanId
      modifies db
      ensures (db.View(), r) == Drive(old(db.View()), checked, now, 0)
    {
      ghost var w, th := db.View(), checked;
      var log := PickupLog(schoolId, tripId, studentId, BoardingAction(drop), key, now);
      var created := db.CreateLog(log);
      if !created { return DatabaseError; }
      th := Went(w, th, db.View(), th.locals.(answer := LogRow(log)), now, 0);
      w := db.View();
      db.SetVanLocation(vanId, schoolId, loc, now);
      th := Went(w, th, db.View(), th.locals, now, 0);
      w := db.View();
      db.SetVanLocation(tripId, schoolId, loc, now);
      th := Went(w, th, db.View(), th.locals, now, 0);
      return LogRow(log);
    }

    method Absent(schoolId: Id, tripId: Id, studentId: Id, key: Option<Id>, driverId: Id, now: nat) returns (r: Response)
      modifies db
      ensures (db.View(), r) == Serve(old(db.View()), MarkAbsent(schoolId, driverId, tripId, studentId, key), now, 0)
    {
      ghost var w, th := db.View(), Opened(MarkAbsent(schoolId, driverId, tripId, studentId, key));
      var trip := db.FindTrip(schoolId, driverId, tripId, {IN_PROGRESS});
      if trip.None? { return NotFound; }
      th := Went(w, th, w, th.locals.(van := trip.value.van), now, 0);
      var rider := db.FindRider(schoolId, studentId, trip.value.van);
      if !rider { return BadRequest; }
      th := Went(w, th, w, th.locals, now, 0);
      var existing := db.FindBoarding(tripId, studentId);
      if existing { return Conflict; }
      th := Went(w, th, w, th.locals, now, 0);
      var log := PickupLog(schoolId, tripId, studentId, ABSENT, key, now);
      var created := db.CreateLog(log);
      if !created { return DatabaseError; }
      th := Went(w, th, db.View(), th.locals.(answer := LogRow(log)), now, 0);
      return LogRow(log);
    }

    method ActivateSos(schoolId: Id, tripId: Id, at: Option<Location>, driverId: Id, now: nat) returns (r: Response)
      modifies db
      ensures (db.View(), r) == Serve(old(db.View()), ActivateSOS(schoolId, driverId, tripId, at), now, 0)
    {
      ghost var w, th := db.View(), Opened(ActivateSOS(schoolId, driverId, tripId, at));
      var trip := db.FindTrip(schoolId, driverId, tripId, {NOT_STARTED, IN_PROGRESS});
      if trip.None? { return NotFound; }
      th := Went(w, th, w, th.locals.(van := trip.value.van), now, 0);
      var updated := db.trips[tripId].(status := SOS_ACTIVE);
      db.trips := db.trips[tripId := updated];
      th := Went(w, th, db.View(), th.locals.(answer := TripRow(updated)), now, 0);
      w := db.View();
      if at.Some? {
        db.SetVanLocation(trip.value.van, schoolId, at.value, now);
      }
      th := Went(w, th, db.View(), th.locals, now, 0);
      w := db.View();
      db.alerts := db.alerts + [Alert(schoolId, tripId, trip.value.van, SOS)];
      th := Went(w, th, db.View(), th.locals, now, 0);
      return TripRow(updated);
    }

    method ResolveSos(schoolId: Id, tripId: Id, willContinue: bool, driverId: Id, now: nat) returns (r: Response)
      modifies db
      ensures (db.View(), r) == Serve(old(db.View()), ResolveSOS(schoolId, driverId, tripId, willContinue), now, 0)
    {
      ghost var w, th := db.View(), Opened(ResolveSOS(schoolId, driverId, tripId, willContinue));
      var trip := db.FindTrip(schoolId, driverId, tripId, {SOS_ACTIVE});
      if trip.None? { return NotFound; }
      th := Went(w, th, w, th.locals.(van := trip.value.van), now, 0);
      var updated := db.trips[tripId].(status := if willContinue then IN_PROGRESS else COMPLETED);
      if !willContinue {
        updated := updated.(actualEnd := Some(now));
      }
      db.trips := db.trips[tripId := updated];
      th := Went(w, th, db.View(), th.locals.(answer := TripRow(updated)), now, 0);
      w := db.View();
      db.alerts := db.alerts + [Alert(schoolId, tripId, trip.value.van, SOS_RESOLVED)];
      th := Went(w, th, db.View(), th.locals, now, 0);
      return TripRow(updated);
    }
  }
}
