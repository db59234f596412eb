// The van, driver and student handlers as they run when nothing else does.
module FleetServices {
  import opened Options
  import opened Text
  import opened Schema
  import opened Handlers
  import opened Database

  class VansService {
    const db: Database

    constructor (db: Database)
      ensures this.db == db
    {
      this.db := db;
    }

    method Create(schoolId: Id, plate: string, driverId: Option<Id>, now: nat, newId: Id) returns (r: Response)
      modifies db
      ensures (db.View(), r) == Serve(old(db.View()), CreateVan(schoolId, plate, driverId), now, newId)
    {
      ghost var w, th := db.View(), Opened(CreateVan(schoolId, plate, driverId));
      if PlateTakenInSchool(db.View(), schoolId, Upper(plate), None) { return Conflict; }
      th := Went(w, th, w, th.locals, now, newId);
      if driverId.Some? {
        var usable := db.FindUser(schoolId, driverId.value, DRIVER);
        if !usable { return BadRequest; }
      }
      th := Went(w, th, w, th.locals, now, newId);
      if newId in db.vans || PlateTaken(db.View(), Upper(plate), None) { return DatabaseError; }
      db.vans := db.vans[newId := Van(schoolId, Upper(plate), driverId, true, false)];
      th := Went(w, th, db.View(), th.locals, now, newId);
      return Done;
    }

    method Update(schoolId: Id, vanId: Id, plate: Option<string>, driverId: Option<Id>, isActive: Option<bool>, now: nat)
      returns (r: Response)
      modifies db
      ensures (db.View(), r) == Serve(old(db.View()), UpdateVan(schoolId, vanId, plate, driverId, isActive), now, 0)
    {
      ghost var w, th := db.View(), Opened(UpdateVan(schoolId, vanId, plate, driverId, isActive));
      var existing := db.FindVan(schoolId, vanId);
      if existing.None? { return NotFound; }
      th := Went(w, th, w, th.locals.(plate := existing.value.plate, driver := existing.value.driver), now, 0);
      if plate.Some? && plate.value != "" && plate.value != existing.value.plate {
        if PlateTakenInSchool(db.View(), schoolId, Upper(plate.value), Some(vanId)) { return Conflict; }
      }
      th := Went(w, th, w, th.locals, now, 0);
      if driverId.Some? {
        var usable := db.FindUser(schoolId, driverId.value, DRIVER);
        if !usable { return BadRequest; }
      }
      th := Went(w, th, w, th.locals, now, 0);
      if driverId.Some? && DriverBusy(db.View(), schoolId, driverId.value, vanId) { return BadRequest; }
      th := Went(w, th, w, th.locals, now, 0);
      r := Write(schoolId, vanId, plate, driverId, isActive, existing.value.driver, now, th);
    }

    // The row update that ends an update of a van: it writes back the driver it read.
    method Write(schoolId: Id, vanId: Id, plate: Option<string>, driverId: Option<Id>, isActive: Option<bool>,
                 readDriver: Option<Id>, now: nat, ghost checked: Thread)
      returns (r: Response)
      requires checked.req == UpdateVan(schoolId, vanId, plate, driverId, isActive) && checked.k == 4
      requires checked.locals.driver == readDriver && checked.locals.answer == Done && vanId in db.vans
      modifies db
      ensures (db.View(), r) == Drive(old(db.View()), checked, now, 0)
    {
      ghost var w, th := db.View(), checked;
      if plate.Some? && PlateTaken(db.View(), Upper(plate.value), Some(vanId)) { return DatabaseError; }
      var row := db.vans[vanId].(driver := if driverId.Some? then driverId else readDriver);
      if plate.Some? {
        row := row.(plate := Upper(plate.value));
      }
      if isActive.Some? {
        row := row.(active := isActive.value);
      }
      db.vans := db.vans[vanId := row];
      th := Went(w, th, db.View(), th.locals, now, 0);
      return Done;
    }

    method Remove(schoolId: Id, vanId: Id, now: nat) returns (r: Response)
      modifies db
      ensures (db.View(), r) == Serve(old(db.View()), RemoveVan(schoolId, vanId), now, 0)
    {
      ghost var w, th := db.View(), Opened(RemoveVan(schoolId, vanId));
      var existing := db.FindVan(schoolId, vanId);
      if existing.None? { return NotFound; }
      th := Went(w, th, w, th.locals.(plate := existing.value.plate, driver := existing.value.driver), now, 0);
      db.vans := db.vans[vanId := db.vans[vanId].(active := false, deleted := true)];
      th := Went(w, th, db.View(), th.locals, now, 0);
      return Done;
    }

    method Assign(schoolId: Id, vanId: Id, driverId: Id, now: nat) returns (r: Response)
      modifies db
      ensures (db.View(), r) == Serve(old(db.View()), AssignDriver(schoolId, vanId, driverId), now, 0)
    {
      ghost var w, th := db.View(), Opened(AssignDriver(schoolId, vanId, driverId));
      var van := db.FindVan(schoolId, vanId);
      if van.None? { return NotFound; }
      th := Went(w, th, w, th.locals.(plate := van.value.plate, driver := van.value.driver), now, 0);
      var usable := db.FindUser(schoolId, driverId, DRIVER);
      if !usable { return BadRequest; }
      th := Went(w, th, w, th.locals, now, 0);
      if DriverBusy(db.View(), schoolId, driverId, vanId) { return BadRequest; }
      th := Went(w, th, w, th.locals, now, 0);
      db.vans := db.vans[vanId := db.vans[vanId].(driver := Some(driverId))];
      th := Went(w, th, db.View(), th.locals, now, 0);
      return Done;
    }

    method Unassign(schoolId: Id, vanId: Id, now: nat) returns (r: Response)
      modifies db
      ensures (db.View(), r) == Serve(old(db.View()), UnassignDriver(schoolId, vanId), now, 0)
    {
      ghost var w, th := db.View(), Opened(UnassignDriver(schoolId, vanId));
      var van := db.FindVan(schoolId, vanId);
      if van.None? { return NotFound; }
      if van.value.driver.None? { return BadRequest; }
      th := Went(w, th, w, th.locals.(plate := van.value.plate, driver := van.value.driver), now, 0);
      db.vans := db.vans[vanId := db.vans[vanId].(driver := None)];
      th := Went(w, th, db.View(), th.locals, now, 0);
      return Done;
    }
  }

  class DriversService {
    const db: Database

    constructor (db: Database)
      ensures this.db == db
    {
      this.db := db;
    }

    method Create(schoolId: Id, email: string, now: nat, newId: Id) returns (r: Response)
      modifies db
      ensures (db.View(), r) == Serve(old(db.View()), CreateDriver(schoolId, email), now, newId)
    {
      ghost var w, th := db.View(), Opened(CreateDriver(schoolId, email));
      if EmailTakenInSchool(db.View(), schoolId, Lower(email)) { return Conflict; }
      th := Went(w, th, w, th.locals, now, newId);
      if newId in db.users || EmailTaken(db.View(), Lower(email)) { return DatabaseError; }
      db.users := db.users[newId := User(schoolId, Lower(email), DRIVER, true, false)];
      th := Went(w, th, db.View(), th.locals, now, newId);
      return Done;
    }

    method FindDriver(schoolId: Id, driverId: Id) returns (found: bool)
      ensures found <==> UserIn(db.View(), driverId, schoolId) && db.users[driverId].role == DRIVER && !db.users[driverId].deleted
    {
      found := driverId in db.users && db.users[driverId].school == schoolId &&
        db.users[driverId].role == DRIVER && !db.users[driverId].deleted;
    }

    method Update(schoolId: Id, driverId: Id, isActive: Option<bool>, now: nat) returns (r: Response)
      modifies db
      ensures (db.View(), r) == Serve(old(db.View()), UpdateDriver(schoolId, driverId, isActive), now, 0)
    {
      ghost var w, th := db.View(), Opened(UpdateDriver(schoolId, driverId, isActive));
      var found := FindDriver(schoolId, driverId);
      if !found { return NotFound; }
      th := Went(w, th, w, th.locals, now, 0);
      if isActive.Some? {
        db.users := db.users[driverId := db.users[driverId].(active := isActive.value)];
      }
      th := Went(w, th, db.View(), th.locals, now, 0);
      return Done;
    }

    // Soft delete, then take the driver off every van of the school.
    method Remove(schoolId: Id, driverId: Id, now: nat) returns (r: Response)
      modifies db
      ensures (db.View(), r) == Serve(old(db.View()), RemoveDriver(schoolId, driverId), now, 0)
    {
      ghost var w, th := db.View(), Opened(RemoveDriver(schoolId, driverId));
      var found := FindDriver(schoolId, driverId);
      if !found { return NotFound; }
      th := Went(w, th, w, th.locals, now, 0);
      db.users := db.users[driverId := db.users[driverId].(active := false, deleted := true)];
      th := Went(w, th, db.View(), th.locals, now, 0);
      w := db.View();
      db.vans := WithoutDriver(db.vans, schoolId, driverId);
      th := Went(w, th, db.View(), th.locals, now, 0);
      return Done;
    }
  }

  class StudentsService {
    const db: Database

    constructor (db: Database)
      ensures this.db == db
    {
      this.db := db;
    }

    method VanFits(schoolId: Id, vanId: Id) returns (fits: bool)
      ensures fits <==> VanIn(db.View(), vanId, schoolId) && db.vans[vanId].active && !db.vans[vanId].deleted
    {
      fits := vanId in db.vans && db.vans[vanId].school == schoolId && db.vans[vanId].active && !db.vans[vanId].deleted;
    }

    method Create(schoolId: Id, parentId: Id, vanId: Option<Id>, now: nat, newId: Id) returns (r: Response)
      modifies db
      ensures (db.View(), r) == Serve(old(db.View()), CreateStudent(schoolId, parentId, vanId), now, newId)
    {
      ghost var w, th := db.View(), Opened(CreateStudent(schoolId, parentId, vanId));
      var parent := db.FindUser(schoolId, parentId, PARENT);
      if !parent { return Conflict; }
      th := Went(w, th, w, th.locals, now, newId);
      if vanId.Some? {
        var fits := VanFits(schoolId, vanId.value);
        if !fits { return Conflict; }
      }
      th := Went(w, th, w, th.locals, now, newId);
      if newId in db.students { return DatabaseError; }
      db.students := db.students[newId := Student(schoolId, parentId, vanId, true, false)];
      th := Went(w, th, db.View(), th.locals, now, newId);
      return Done;
    }

    // A change of van clears the old van's roster before it moves the student.
    method Update(schoolId: Id, studentId: Id, van: Patch<Id>, isActive: Option<bool>, now: nat) returns (r: Response)
      modifies db
      ensures (db.View(), r) == Serve(old(db.View()), UpdateStudent(schoolId, studentId, van, isActive), now, 0)
    {
      ghost var w, th := db.View(), Opened(UpdateStudent(schoolId, studentId, van, isActive));
      if !(studentId in db.students && db.students[studentId].school == schoolId && !db.students[studentId].deleted) {
        return NotFound;
      }
      var student := db.students[studentId];
      th := Went(w, th, w, th.locals.(riderVan := student.van), now, 0);
      var changes := van.Set? && student.van != Some(van.value);
      if changes {
        var fits := VanFits(schoolId, van.value);
        if !fits { return Conflict; }
      }
      th := Went(w, th, w, th.locals, now, 0);
      r := Move(schoolId, studentId, van, isActive, student.van, changes, now, th);
    }

    // The writes of an update of a student.
    method Move(schoolId: Id, studentId: Id, van: Patch<Id>, isActive: Option<bool>, oldVan: Option<Id>, changes: bool,
                now: nat, ghost checked: Thread)
      returns (r: Response)
      requires checked.req == UpdateStudent(schoolId, studentId, van, isActive) && checked.k == 2
      requires checked.locals.riderVan == oldVan && checked.locals.answer == Done
      requires changes == VanChanges(van, oldVan) && studentId in db.students
      modifies db
      ensures (db.View(), r) == Drive(old(db.View()), checked, now, 0)
    {
      ghost var w, th := db.View(), checked;
      if changes {
        db.students := WithoutRiders(db.students, schoolId, oldVan, studentId);
      }
      th := Went(w, th, db.View(), th.locals, now, 0);
      w := db.View();
      var row := db.students[studentId];
      if van.Set? {
        row := row.(van := Some(van.value));
      } else if van.Clear? {
        row := row.(van := None);
      }
      if isActive.Some? {
        row := row.(active := isActive.value);
      }
      db.students := db.students[studentId := row];
      th := Went(w, th, db.View(), th.locals, now, 0);
      return Done;
    }

    method Remove(schoolId: Id, studentId: Id, now: nat) returns (r: Response)
      modifies db
      ensures (db.View(), r) == Serve(old(db.View()), RemoveStudent(schoolId, studentId), now, 0)
    {
      ghost var w, th := db.View(), Opened(RemoveStudent(schoolId, studentId));
      if !(studentId in db.students && db.students[studentId].school == schoolId && !db.students[studentId].deleted) {
        return NotFound;
      }
      th := Went(w, th, w, th.locals.(riderVan := db.students[studentId].van), now, 0);
      db.students := db.students[studentId := db.students[studentId].(active := false, deleted := true, van := None)];
      th := Went(w, th, db.View(), th.locals, now, 0);
      return Done;
    }
  }
}
