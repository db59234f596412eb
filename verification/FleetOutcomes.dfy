// What each van, driver and student handler leaves behind and answers when it is served alone, for every
// store and request, in the same way as TripOutcomes.
module FleetOutcomes {
  import opened Options
  import opened Text
  import opened Schema
  import opened Handlers
  import opened Database

  lemma CreateVanOutcome(w: World, school: Id, plate: string, driver: Option<Id>, now: nat, newId: Id)
    ensures var (w', r) := Serve(w, CreateVan(school, plate, driver), now, newId);
            if exists v <- w.vans :: w.vans[v].plate == Upper(plate) && w.vans[v].school == school && !w.vans[v].deleted
            then w' == w && r == Conflict
            else if driver.Some? && !(driver.value in w.users && w.users[driver.value] == User(school, w.users[driver.value].email, DRIVER, true, false))
            then w' == w && r == BadRequest
            else if newId in w.vans || exists v <- w.vans :: w.vans[v].plate == Upper(plate)
            then w' == w && r == DatabaseError
            else w' == w.(vans := w.vans[newId := Van(school, Upper(plate), driver, true, false)]) && r == Done
  {
    hide Drive, Upper;
    var th := Opened(CreateVan(school, plate, driver));
    if Call(w, th, now, newId).Stop? {
      Halts(w, th, now, newId, w, Conflict);
    } else {
      th := Went(w, th, w, th.locals, now, newId);
      if Call(w, th, now, newId).Stop? {
        Halts(w, th, now, newId, w, BadRequest);
      } else {
        th := Went(w, th, w, th.locals, now, newId);
        if Call(w, th, now, newId).Stop? {
          Halts(w, th, now, newId, w, DatabaseError);
        } else {
          var w1 := w.(vans := w.vans[newId := Van(school, Upper(plate), driver, true, false)]);
          th := Went(w, th, w1, th.locals, now, newId);
          Over(w1, th, now, newId);
        }
      }
    }
  }

  lemma UpdateVanOutcome(w: World, school: Id, van: Id, plate: Option<string>, driver: Option<Id>, active: Option<bool>,
                         now: nat, newId: Id)
    ensures var (w', r) := Serve(w, UpdateVan(school, van, plate, driver, active), now, newId);
            if !(van in w.vans && w.vans[van].school == school && !w.vans[van].deleted) then w' == w && r == NotFound
            else if plate.Some? && plate.value != "" && plate.value != w.vans[van].plate &&
                    exists v <- w.vans :: v != van && w.vans[v].plate == Upper(plate.value) && w.vans[v].school == school && !w.vans[v].deleted
            then w' == w && r == Conflict
            else if driver.Some? &&
                    (!(driver.value in w.users && w.users[driver.value] == User(school, w.users[driver.value].email, DRIVER, true, false)) ||
                     exists v <- w.vans :: v != van && w.vans[v].driver == driver && w.vans[v].school == school &&
                                           w.vans[v].active && !w.vans[v].deleted)
            then w' == w && r == BadRequest
            else if plate.Some? && exists v <- w.vans :: v != van && w.vans[v].plate == Upper(plate.value)
            then w' == w && r == DatabaseError
            else var row := Van(school, if plate.Some? then Upper(plate.value) else w.vans[van].plate,
                                if driver.Some? then driver else w.vans[van].driver,
                                if active.Some? then active.value else w.vans[van].active, false);
                 w' == w.(vans := w.vans[van := row]) && r == Done
  {
    hide Drive, Upper;
    var th := Opened(UpdateVan(school, van, plate, driver, active));
    if Call(w, th, now, newId).Stop? {
      Halts(w, th, now, newId, w, NotFound);
    } else {
      th := Went(w, th, w, FRESH_LOCALS.(plate := w.vans[van].plate, driver := w.vans[van].driver), now, newId);
      if Call(w, th, now, newId).Stop? {
        Halts(w, th, now, newId, w, Conflict);
      } else {
        th := Went(w, th, w, th.locals, now, newId);
        VanUpdates(w, th, now, newId);
      }
    }
  }

  lemma VanUpdates(w: World, th: Thread, now: nat, newId: Id)
    requires th.req.UpdateVan? && th.k == 2 && th.locals.answer == Done
    requires th.req.van in w.vans && th.locals.driver == w.vans[th.req.van].driver
    ensures var (w', r) := Drive(w, th, now, newId);
            var school, van, plate, driver, active := th.req.school, th.req.van, th.req.newPlate, th.req.driverOpt, th.req.newActive;
            if driver.Some? &&
               (!(driver.value in w.users && w.users[driver.value] == User(school, w.users[driver.value].email, DRIVER, true, false)) ||
                exists v <- w.vans :: v != van && w.vans[v].driver == driver && w.vans[v].school == school &&
                                      w.vans[v].active && !w.vans[v].deleted)
            then w' == w && r == BadRequest
            else if plate.Some? && exists v <- w.vans :: v != van && w.vans[v].plate == Upper(plate.value)
            then w' == w && r == DatabaseError
            else var row := w.vans[van].(plate := if plate.Some? then Upper(plate.value) else w.vans[van].plate,
                                         driver := if driver.Some? then driver else w.vans[van].driver,
                                         active := if active.Some? then active.value else w.vans[van].active);
                 w' == w.(vans := w.vans[van := row]) && r == Done
  {
    hide Drive, Upper;
    if Call(w, th, now, newId).Stop? {
      Halts(w, th, now, newId, w, BadRequest);
    } else {
      var th1 := Went(w, th, w, th.locals, now, newId);
      if Call(w, th1, now, newId).Stop? {
        Halts(w, th1, now, newId, w, BadRequest);
      } else {
        var th2 := Went(w, th1, w, th.locals, now, newId);
        var r := Call(w, th2, now, newId);
        if r.Stop? {
          Halts(w, th2, now, newId, w, DatabaseError);
        } else {
          var th3 := Went(w, th2, r.world, th.locals, now, newId);
          Over(r.world, th3, now, newId);
        }
      }
    }
  }

  lemma RemoveVanOutcome(w: World, school: Id, van: Id, now: nat, newId: Id)
    ensures var (w', r) := Serve(w, RemoveVan(school, van), now, newId);
            if van in w.vans && w.vans[van].school == school && !w.vans[van].deleted
            then w' == w.(vans := w.vans[van := Van(school, w.vans[van].plate, w.vans[van].driver, false, true)]) && r == Done
            else w' == w && r == NotFound
  {
    hide Drive;
    var th := Opened(RemoveVan(school, van));
    if Call(w, th, now, newId).Stop? {
      Halts(w, th, now, newId, w, NotFound);
    } else {
      th := Went(w, th, w, FRESH_LOCALS.(plate := w.vans[van].plate, driver := w.vans[van].driver), now, newId);
      var w1 := w.(vans := w.vans[van := w.vans[van].(active := false, deleted := true)]);
      th := Went(w, th, w1, th.locals, now, newId);
      Over(w1, th, now, newId);
    }
  }

  lemma AssignDriverOutcome(w: World, school: Id, van: Id, driver: Id, now: nat, newId: Id)
    ensures var (w', r) := Serve(w, AssignDriver(school, van, driver), now, newId);
            if !(van in w.vans && w.vans[van].school == school && !w.vans[van].deleted) then w' == w && r == NotFound
            else if !(driver in w.users && w.users[driver] == User(school, w.users[driver].email, DRIVER, true, false)) ||
                    exists v <- w.vans :: v != van && w.vans[v].driver == Some(driver) && w.vans[v].school == school &&
                                          w.vans[v].active && !w.vans[v].deleted
            then w' == w && r == BadRequest
            else w' == w.(vans := w.vans[van := w.vans[van].(driver := Some(driver))]) && r == Done
  {
    hide Drive;
    var th := Opened(AssignDriver(school, van, driver));
    if Call(w, th, now, newId).Stop? {
      Halts(w, th, now, newId, w, NotFound);
    } else {
      th := Went(w, th, w, FRESH_LOCALS.(plate := w.vans[van].plate, driver := w.vans[van].driver), now, newId);
      if Call(w, th, now, newId).Stop? {
        Halts(w, th, now, newId, w, BadRequest);
      } else {
        th := Went(w, th, w, th.locals, now, newId);
        AssignmentWrites(w, th, now, newId);
      }
    }
  }

  lemma AssignmentWrites(w: World, th: Thread, now: nat, newId: Id)
    requires th.req.AssignDriver? && th.k == 2 && th.locals.answer == Done && th.req.van in w.vans
    ensures var (w', r) := Drive(w, th, now, newId);
            var school, van, driver := th.req.school, th.req.van, th.req.driver;
            if exists v <- w.vans :: v != van && w.vans[v].driver == Some(driver) && w.vans[v].school == school &&
                                     w.vans[v].active && !w.vans[v].deleted
            then w' == w && r == BadRequest
            else w' == w.(vans := w.vans[van := w.vans[van].(driver := Some(driver))]) && r == Done
  {
    hide Drive;
    if Call(w, th, now, newId).Stop? {
      Halts(w, th, now, newId, w, BadRequest);
    } else {
      var th1 := Went(w, th, w, th.locals, now, newId);
      var w1 := w.(vans := w.vans[th.req.van := w.vans[th.req.van].(driver := Some(th.req.driver))]);
      var th2 := Went(w, th1, w1, th.locals, now, newId);
      Over(w1, th2, now, newId);
    }
  }

  lemma UnassignDriverOutcome(w: World, school: Id, van: Id, now: nat, newId: Id)
    ensures var (w', r) := Serve(w, UnassignDriver(school, van), now, newId);
            if !(van in w.vans && w.vans[van].school == school && !w.vans[van].deleted) then w' == w && r == NotFound
            else if w.vans[van].driver == None then w' == w && r == BadRequest
            else w' == w.(vans := w.vans[van := w.vans[van].(driver := None)]) && r == Done
  {
    hide Drive;
    var th := Opened(UnassignDriver(school, van));
    var r := Call(w, th, now, newId);
    if r.Stop? {
      Halts(w, th, now, newId, w, r.answer);
    } else {
      th := Went(w, th, w, FRESH_LOCALS.(plate := w.vans[van].plate, driver := w.vans[van].driver), now, newId);
      var w1 := w.(vans := w.vans[van := w.vans[van].(driver := None)]);
      th := Went(w, th, w1, th.locals, now, newId);
      Over(w1, th, now, newId);
    }
  }

  lemma CreateDriverOutcome(w: World, school: Id, email: string, now: nat, newId: Id)
    ensures var (w', r) := Serve(w, CreateDriver(school, email), now, newId);
            if exists u <- w.users :: w.users[u].email == Lower(email) && w.users[u].school == school && !w.users[u].deleted
            then w' == w && r == Conflict
            else if newId in w.users || exists u <- w.users :: w.users[u].email == Lower(email)
            then w' == w && r == DatabaseError
            else w' == w.(users := w.users[newId := User(school, Lower(email), DRIVER, true, false)]) && r == Done
  {
    hide Drive, Lower;
    var th := Opened(CreateDriver(school, email));
    if Call(w, th, now, newId).Stop? {
      Halts(w, th, now, newId, w, Conflict);
    } else {
      th := Went(w, th, w, th.locals, now, newId);
      if Call(w, th, now, newId).Stop? {
        Halts(w, th, now, newId, w, DatabaseError);
      } else {
        var w1 := w.(users := w.users[newId := User(school, Lower(email), DRIVER, true, false)]);
        th := Went(w, th, w1, th.locals, now, newId);
        Over(w1, th, now, newId);
      }
    }
  }

  lemma UpdateDriverOutcome(w: World, school: Id, driver: Id, active: Option<bool>, now: nat, newId: Id)
    ensures var (w', r) := Serve(w, UpdateDriver(school, driver, active), now, newId);
            if driver in w.users && w.users[driver].school == school && w.users[driver].role == DRIVER && !w.users[driver].deleted
            then var u := w.users[driver];
                 w' == w.(users := w.users[driver :=
                   User(school, u.email, DRIVER, if active.Some? then active.value else u.active, false)]) && r == Done
            else w' == w && r == NotFound
  {
    hide Drive;
    var th := Opened(UpdateDriver(school, driver, active));
    if Call(w, th, now, newId).Stop? {
      Halts(w, th, now, newId, w, NotFound);
    } else {
      th := Went(w, th, w, th.locals, now, newId);
      var u := w.users[driver];
      var w1 := w.(users := w.users[driver := u.(active := if active.Some? then active.value else u.active)]);
      assert active.None? ==> w1 == w;
      th := Went(w, th, w1, th.locals, now, newId);
      Over(w1, th, now, newId);
    }
  }

  // A removal takes its own driver off the vans of the school, and no other van's driver.
  lemma RemoveDriverOutcome(w: World, school: Id, driver: Id, now: nat, newId: Id)
    ensures var (w', r) := Serve(w, RemoveDriver(school, driver), now, newId);
            if driver in w.users && w.users[driver].school == school && w.users[driver].role == DRIVER && !w.users[driver].deleted
            then r == Done && w' == w.(users := w'.users, vans := w'.vans) &&
                 w'.users == w.users[driver := User(school, w.users[driver].email, DRIVER, false, true)] &&
                 w'.vans.Keys == w.vans.Keys &&
                 forall v <- w.vans :: var van := w.vans[v];
                   w'.vans[v] == if van.driver == Some(driver) && van.school == school
                                 then Van(van.school, van.plate, None, van.active, van.deleted) else van
            else w' == w && r == NotFound
  {
    hide Drive;
    var th := Opened(RemoveDriver(school, driver));
    if Call(w, th, now, newId).Stop? {
      Halts(w, th, now, newId, w, NotFound);
    } else {
      th := Went(w, th, w, th.locals, now, newId);
      var w1 := w.(users := w.users[driver := w.users[driver].(active := false, deleted := true)]);
      th := Went(w, th, w1, th.locals, now, newId);
      var w2 := w1.(vans := WithoutDriver(w1.vans, school, driver));
      th := Went(w1, th, w2, th.locals, now, newId);
      Over(w2, th, now, newId);
    }
  }

  lemma CreateStudentOutcome(w: World, school: Id, parent: Id, van: Option<Id>, now: nat, newId: Id)
    ensures var (w', r) := Serve(w, CreateStudent(school, parent, van), now, newId);
            if !(parent in w.users && w.users[parent] == User(school, w.users[parent].email, PARENT, true, false))
            then w' == w && r == Conflict
            else if van.Some? && !(van.value in w.vans && w.vans[van.value].school == school &&
                                   w.vans[van.value].active && !w.vans[van.value].deleted)
            then w' == w && r == Conflict
            else if newId in w.students then w' == w && r == DatabaseError
            else w' == w.(students := w.students[newId := Student(school, parent, van, true, false)]) && r == Done
  {
    hide Drive;
    var th := Opened(CreateStudent(school, parent, van));
    if Call(w, th, now, newId).Stop? {
      Halts(w, th, now, newId, w, Conflict);
    } else {
      th := Went(w, th, w, th.locals, now, newId);
      if Call(w, th, now, newId).Stop? {
        Halts(w, th, now, newId, w, Conflict);
      } else {
        th := Went(w, th, w, th.locals, now, newId);
        if newId in w.students {
          Halts(w, th, now, newId, w, DatabaseError);
        } else {
          var w1 := w.(students := w.students[newId := Student(school, parent, van, true, false)]);
          th := Went(w, th, w1, th.locals, now, newId);
          Over(w1, th, now, newId);
        }
      }
    }
  }

  // A move to another van takes every other student of the school off the student's old van, or, without
  // one, changes nobody else.
  lemma UpdateStudentOutcome(w: World, school: Id, student: Id, van: Patch<Id>, active: Option<bool>, now: nat, newId: Id)
    ensures var (w', r) := Serve(w, UpdateStudent(school, student, van, active), now, newId);
            if !(student in w.students && w.students[student].school == school && !w.students[student].deleted)
            then w' == w && r == NotFound
            else var was := w.students[student];
                 var moves := van.Set? && was.van != Some(van.value);
                 if moves && !(van.value in w.vans && w.vans[van.value].school == school && w.vans[van.value].active &&
                               !w.vans[van.value].deleted)
                 then w' == w && r == Conflict
                 else r == Done && w' == w.(students := w'.students) && w'.students.Keys == w.students.Keys &&
                      w'.students[student] == Student(school, was.parent,
                        (match van case Keep => was.van case Clear => None case Set(v) => Some(v)),
                        if active.Some? then active.value else was.active, false) &&
                      forall s <- w.students | s != student :: var other := w.students[s];
                        w'.students[s] == if moves && other.school == school && other.van == was.van
                                          then Student(other.school, other.parent, None, other.active, other.deleted) else other
  {
    hide Drive;
    var th := Opened(UpdateStudent(school, student, van, active));
    if Call(w, th, now, newId).Stop? {
      Halts(w, th, now, newId, w, NotFound);
    } else {
      var was := w.students[student];
      th := Went(w, th, w, FRESH_LOCALS.(riderVan := was.van), now, newId);
      if Call(w, th, now, newId).Stop? {
        Halts(w, th, now, newId, w, Conflict);
      } else {
        th := Went(w, th, w, th.locals, now, newId);
        StudentMoves(w, th, now, newId);
      }
    }
  }

  lemma StudentMoves(w: World, th: Thread, now: nat, newId: Id)
    requires th.req.UpdateStudent? && th.k == 2 && th.locals.answer == Done
    requires th.req.student in w.students && th.locals.riderVan == w.students[th.req.student].van
    ensures var (w', r) := Drive(w, th, now, newId);
            var school, student, van, active := th.req.school, th.req.student, th.req.vanPatch, th.req.newActive;
            var was := w.students[student];
            var moves := van.Set? && was.van != Some(van.value);
            r == Done && w' == w.(students := w'.students) && w'.students.Keys == w.students.Keys &&
            w'.students[student] == was.(van := (match van case Keep => was.van case Clear => None case Set(v) => Some(v)),
                                         active := if active.Some? then active.value else was.active) &&
            forall s <- w.students | s != student :: var other := w.students[s];
              w'.students[s] == if moves && other.school == school && other.van == was.van then other.(van := None) else other
  {
    hide Call, Drive, Length;
    UpdateIsLong(th.req);
    RosterCleared(w, th, now, newId);
    var w1 := Call(w, th, now, newId).world;
    var th1 := Went(w, th, w1, th.locals, now, newId);
    StudentWritten(w1, th1, now, newId);
  }

  lemma UpdateIsLong(req: Request)
    ensures req.UpdateStudent? ==> Length(req) == 4
  {
  }

  lemma RosterCleared(w: World, th: Thread, now: nat, newId: Id)
    requires th.req.UpdateStudent? && th.k == 2
    ensures var r := Call(w, th, now, newId);
            var moves := th.req.vanPatch.Set? && th.locals.riderVan != Some(th.req.vanPatch.value);
            r.Next? && r.locals == th.locals && r.world == w.(students := r.world.students) &&
            r.world.students.Keys == w.students.Keys &&
            forall s <- w.students :: var was := w.students[s];
              r.world.students[s] == if moves && was.school == th.req.school && was.van == th.locals.riderVan && s != th.req.student
                                     then was.(van := None) else was
  {
  }

  lemma StudentWritten(w: World, th: Thread, now: nat, newId: Id)
    requires th.req.UpdateStudent? && th.k == 3 && th.req.student in w.students
    ensures var was, van, active := w.students[th.req.student], th.req.vanPatch, th.req.newActive;
            Drive(w, th, now, newId) == (w.(students := w.students[th.req.student :=
              was.(van := (match van case Keep => was.van case Clear => None case Set(v) => Some(v)),
                   active := if active.Some? then active.value else was.active)]), th.locals.answer)
  {
    hide Drive;
    var r := Call(w, th, now, newId);
    var th1 := Went(w, th, r.world, th.locals, now, newId);
    Over(r.world, th1, now, newId);
  }

  lemma RemoveStudentOutcome(w: World, school: Id, student: Id, now: nat, newId: Id)
    ensures var (w', r) := Serve(w, RemoveStudent(school, student), now, newId);
            if student in w.students && w.students[student].school == school && !w.students[student].deleted
            then w' == w.(students := w.students[student := Student(school, w.students[student].parent, None, false, true)]) && r == Done
            else w' == w && r == NotFound
  {
    hide Drive;
    var th := Opened(RemoveStudent(school, student));
    if Call(w, th, now, newId).Stop? {
      Halts(w, th, now, newId, w, NotFound);
    } else {
      th := Went(w, th, w, FRESH_LOCALS.(riderVan := w.students[student].van), now, newId);
      var w1 := w.(students := w.students[student := w.students[student].(active := false, deleted := true, van := None)]);
      th := Went(w, th, w1, th.locals, now, newId);
      Over(w1, th, now, newId);
    }
  }
}
