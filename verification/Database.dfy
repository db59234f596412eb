// The shared PostgreSQL tables and Redis keys, and the lookups the services share.
module Database {
  import opened Options
  import opened Schema
  import opened Handlers

  class Database {
    var users: map<Id, User>
    var vans: map<Id, Van>
    var students: map<Id, Student>
    var routes: map<Id, Route>
    var trips: map<Id, Trip>
    var logs: seq<PickupLog>
    var alerts: seq<Alert>
    var active: map<Id, ActiveKey>
    var fixes: map<Id, Fix>

    function View(): World
      reads this
    {
      World(users, vans, students, routes, trips, logs, alerts, active, fixes)
    }

    // trip.findFirst with id, school, driver, status and deletedAt: null.
    method FindTrip(schoolId: Id, driverId: Id, tripId: Id, allowed: set<Status>) returns (trip: Option<Trip>)
      ensures trip.Some? <==>
              TripIn(View(), tripId, schoolId) && trips[tripId].driver == driverId &&
              trips[tripId].status in allowed && !trips[tripId].deleted
      ensures trip.Some? ==> trip.value == trips[tripId]
    {
      trip := None;
      if tripId in trips {
        var row := trips[tripId];
        if row.school == schoolId && row.driver == driverId && row.status in allowed && !row.deleted {
          trip := Some(row);
        }
      }
    }

    // student.findFirst with id, school, van, isActive: true and deletedAt: null.
    method FindRider(schoolId: Id, studentId: Id, vanId: Id) returns (found: bool)
      ensures found <==>
              StudentIn(View(), studentId, schoolId) && students[studentId].van == Some(vanId) &&
              students[studentId].active && !students[studentId].deleted
    {
      found := false;
      if studentId in students {
        var row := students[studentId];
        found := row.school == schoolId && row.van == Some(vanId) && row.active && !row.deleted;
      }
    }

    // pickupLog.findFirst with trip, student and action in PICKED_UP, DROPPED_OFF.
    method FindBoarding(tripId: Id, studentId: Id) returns (found: bool)
      ensures found <==> Boarded(logs, tripId, studentId)
    {
      found := false;
      for i := 0 to |logs|
        invariant found <==> Boarded(logs[..i], tripId, studentId)
      {
        assert logs[..i + 1] == logs[..i] + [logs[i]];
        if logs[i].trip == tripId && logs[i].student == studentId && logs[i].action.Boards() {
          assert logs[..i + 1][i].action.Boards();
          found := true;
        } else {
          assert forall j | 0 <= j < i :: logs[..i + 1][j] == logs[..i][j];
        }
      }
      assert logs[..|logs|] == logs;
    }

    // pickupLog.create, refused by the unique indexes or appended.
    method CreateLog(log: PickupLog) returns (ok: bool)
      modifies this`logs
      ensures ok <==> LogAccepted(old(logs), log)
      ensures logs == if ok then old(logs) + [log] else old(logs)
    {
      ok := LogAccepted(logs, log);
      if ok {
        logs := logs + [log];
      }
    }

    method SetVanLocation(id: Id, schoolId: Id, loc: Location, now: nat)
      modifies this`fixes
      ensures fixes == old(fixes)[id := Fix(schoolId, loc, now + LOCATION_TTL)]
    {
      fixes := fixes[id := Fix(schoolId, loc, now + LOCATION_TTL)];
    }

    // user.findFirst with id, school, role, isActive: true and deletedAt: null.
    method FindUser(schoolId: Id, userId: Id, role: Role) returns (found: bool)
      ensures found <==> Usable(View(), schoolId, userId, role)
    {
      found := false;
      if userId in users {
        var row := users[userId];
        found := row.school == schoolId && row.role == role && row.active && !row.deleted;
      }
    }

    // van.findFirst with id, school and deletedAt: null.
    method FindVan(schoolId: Id, vanId: Id) returns (van: Option<Van>)
      ensures van.Some? <==> VanIn(View(), vanId, schoolId) && !vans[vanId].deleted
      ensures van.Some? ==> van.value == vans[vanId]
    {
      van := None;
      if vanId in vans && vans[vanId].school == schoolId && !vans[vanId].deleted {
        van := Some(vans[vanId]);
      }
    }
  }

  // One more call of the handler has gone through: what is left of it is what it was.
  lemma Went(w: World, th: Thread, w': World, l': Locals, now: nat, newId: Id) returns (th': Thread)
    requires th.Running() && Call(w, th, now, newId) == Next(w', l')
    ensures th' == Thread(th.req, th.k + 1, l')
    ensures Drive(w, th, now, newId) == Drive(w', th', now, newId)
  {
    th' := Thread(th.req, th.k + 1, l');
  }

  // The call has ended the handler.
  lemma Halts(w: World, th: Thread, now: nat, newId: Id, w': World, answer: Response)
    requires th.Running() && Call(w, th, now, newId) == Stop(w', answer)
    ensures Drive(w, th, now, newId) == (w', answer)
  {
  }

  // The handler has made all its calls.
  lemma Over(w: World, th: Thread, now: nat, newId: Id)
    requires !th.Running()
    ensures Drive(w, th, now, newId) == (w, th.locals.answer)
  {
  }
}
