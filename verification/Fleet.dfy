// Vans, drivers and rosters when the handlers run one after the other.
module Fleet {
  import opened Options
  import opened Text
  import opened Schema
  import opened Handlers
  import opened Frames
  import opened Isolation
  import opened FleetOutcomes

  predicate OnDuty(v: Van) {
    v.active && !v.deleted
  }

  // No van points at a soft-deleted driver.
  ghost predicate DriversPresent(w: World) {
    forall v | v in w.vans && w.vans[v].driver.Some? ::
      w.vans[v].driver.value in w.users && !w.users[w.vans[v].driver.value].deleted
  }

  // No driver has two vans on duty.
  ghost predicate OneVanPerDriver(w: World) {
    forall a, b | a in w.vans && b in w.vans && a != b && OnDuty(w.vans[a]) && OnDuty(w.vans[b]) && w.vans[a].driver.Some? ::
      w.vans[a].driver != w.vans[b].driver
  }

  // Stored plates are upper-case and, by the unique index, all different: across schools, deleted or not.
  ghost predicate PlatesLawful(w: World) {
    (forall v | v in w.vans :: w.vans[v].plate == Upper(w.vans[v].plate)) &&
    (forall a, b | a in w.vans && b in w.vans && a != b :: w.vans[a].plate != w.vans[b].plate)
  }

  // ---- each handler alone, from its checks to its writes ----

  predicate Accepts(w: World, req: Request)
    requires req.UpdateVan? || req.AssignDriver?
  {
    var d := if req.UpdateVan? then req.driverOpt else Some(req.driver);
    VanIn(w, req.van, req.school) && !w.vans[req.van].deleted &&
    (d.Some? ==> Usable(w, req.school, d.value, DRIVER) && !DriverBusy(w, req.school, d.value, req.van))
  }

  function UpdatedVan(v: Van, req: Request): Van
    requires req.UpdateVan?
  {
    v.(plate := if req.newPlate.Some? then Upper(req.newPlate.value) else v.plate,
       driver := if req.driverOpt.Some? then req.driverOpt else v.driver,
       active := if req.newActive.Some? then req.newActive.value else v.active)
  }

  lemma CreateVanAlone(w: World, req: Request, now: nat, newId: Id)
    requires req.CreateVan?
    ensures var (w', r) := Serve(w, req, now, newId);
            var row := Van(req.school, Upper(req.plate), req.driverOpt, true, false);
            if PlateTakenInSchool(w, req.school, Upper(req.plate), None) then w' == w && r == Conflict
            else if req.driverOpt.Some? && !Usable(w, req.school, req.driverOpt.value, DRIVER) then w' == w && r == BadRequest
            else if newId in w.vans || PlateTaken(w, Upper(req.plate), None) then w' == w && r == DatabaseError
            else w' == w.(vans := w.vans[newId := row]) && r == Done
  {
    hide Serve, Upper;
    CreateVanOutcome(w, req.school, req.plate, req.driverOpt, now, newId);
  }

  // The service's own plate check of an update: an empty or unchanged plate skips it.
  predicate PlatePasses(w: World, req: Request)
    requires req.UpdateVan? && req.van in w.vans
  {
    req.newPlate.None? || req.newPlate.value == "" || req.newPlate.value == w.vans[req.van].plate ||
    !PlateTakenInSchool(w, req.school, Upper(req.newPlate.value), Some(req.van))
  }

  // The database's: no other van has the plate.
  predicate PlateStores(w: World, req: Request)
    requires req.UpdateVan?
  {
    req.newPlate.Some? ==> !PlateTaken(w, Upper(req.newPlate.value), Some(req.van))
  }

  lemma UpdateVanAlone(w: World, req: Request, now: nat, newId: Id)
    requires req.UpdateVan?
    ensures var (w', r) := Serve(w, req, now, newId);
            if !VanIn(w, req.van, req.school) || w.vans[req.van].deleted then w' == w && r == NotFound
            else if !PlatePasses(w, req) then w' == w && r == Conflict
            else if !Accepts(w, req) then w' == w && r == BadRequest
            else if !PlateStores(w, req) then w' == w && r == DatabaseError
            else w' == w.(vans := w.vans[req.van := UpdatedVan(w.vans[req.van], req)]) && r == Done
  {
    hide Serve, Upper;
    UpdateVanOutcome(w, req.school, req.van, req.newPlate, req.driverOpt, req.newActive, now, newId);
  }

  lemma AssignDriverAlone(w: World, req: Request, now: nat, newId: Id)
    requires req.AssignDriver?
    ensures var (w', r) := Serve(w, req, now, newId);
            if r == Done
            then Accepts(w, req) && w' == w.(vans := w.vans[req.van := w.vans[req.van].(driver := Some(req.driver))])
            else w' == w
  {
    hide Serve;
    AssignDriverOutcome(w, req.school, req.van, req.driver, now, newId);
  }

  lemma RetireOrUnassignAlone(w: World, req: Request, now: nat, newId: Id)
    requires req.RemoveVan? || req.UnassignDriver?
    ensures var (w', r) := Serve(w, req, now, newId);
            if r == Done
            then VanIn(w, req.van, req.school) && !w.vans[req.van].deleted &&
                 w' == w.(vans := w.vans[req.van := if req.RemoveVan? then w.vans[req.van].(active := false, deleted := true)
                                                    else w.vans[req.van].(driver := None)])
            else w' == w
  {
    hide Serve;
    if req.RemoveVan? {
      RemoveVanOutcome(w, req.school, req.van, now, newId);
    } else {
      UnassignDriverOutcome(w, req.school, req.van, now, newId);
    }
  }

  lemma DriverHandlersAlone(w: World, req: Request, now: nat, newId: Id)
    requires req.CreateDriver? || req.UpdateDriver? || req.RemoveDriver?
    ensures var (w', r) := Serve(w, req, now, newId);
            if r != Done then w' == w
            else if req.CreateDriver?
            then newId !in w.users && w' == w.(users := w.users[newId := User(req.school, Lower(req.email), DRIVER, true, false)])
            else (UserIn(w, req.driver, req.school) && w.users[req.driver].role == DRIVER && !w.users[req.driver].deleted &&
              w' == if req.UpdateDriver?
                    then w.(users := w.users[req.driver := w.users[req.driver].(active :=
                           if req.newActive.Some? then req.newActive.value else w.users[req.driver].active)])
                    else w.(users := w.users[req.driver := w.users[req.driver].(active := false, deleted := true)],
                            vans := WithoutDriver(w.vans, req.school, req.driver)))
  {
    hide Serve, Lower;
    if req.CreateDriver? {
      CreateDriverOutcome(w, req.school, req.email, now, newId);
    } else if req.UpdateDriver? {
      UpdateDriverOutcome(w, req.school, req.driver, req.newActive, now, newId);
    } else {
      RemoveDriverOutcome(w, req.school, req.driver, now, newId);
    }
  }

  predicate OfFleet(req: Request) {
    OfVans(req) || req.CreateDriver? || req.UpdateDriver? || req.RemoveDriver?
  }

  // Trip and student handlers leave vans and users alone.
  lemma {:induction false} OthersKeepFleet(w: World, th: Thread, now: nat, newId: Id)
    requires !OfFleet(th.req)
    ensures var w' := Drive(w, th, now, newId).0; w'.vans == w.vans && w'.users == w.users
    decreases Length(th.req) - th.k
  {
    hide Length;
    if th.Running() {
      OtherCallKeepsFleet(w, th, now, newId);
      var r := Call(w, th, now, newId);
      hide Call;
      if r.Next? {
        OthersKeepFleet(r.world, Later(th, r), now, newId);
      }
    }
  }

  lemma OtherCallKeepsFleet(w: World, th: Thread, now: nat, newId: Id)
    requires !OfFleet(th.req) && th.Running()
    ensures var w' := Call(w, th, now, newId).world; w'.vans == w.vans && w'.users == w.users
  {
    if OfTrips(th.req) {
      TripFrame(w, TripProgram(th.req)[th.k], th.locals, th.req.school, now, newId);
      hide ExecTrip;
    } else {
      PersonFrame(w, PersonProgram(th.req)[th.k], th.locals, th.req.school, newId);
      hide ExecPerson;
    }
  }

  // References stay inside their school when handlers run one after the other, too.
  lemma {:induction false} DriveStaysClosed(w: World, th: Thread, now: nat, newId: Id)
    requires Closed(w) && Learnt(w, th)
    ensures Closed(Drive(w, th, now, newId).0)
    decreases Length(th.req) - th.k
  {
    hide Length, Closed, Learnt;
    if th.Running() {
      CallIsSound(w, th, now, newId);
      var r := Call(w, th, now, newId);
      hide Call;
      if r.Next? {
        DriveStaysClosed(r.world, Later(th, r), now, newId);
      }
    }
  }

  // ---- invariants ----

  // What serving one request can do to vans and users.
  ghost predicate FleetStep(w: World, w': World, req: Request, newId: Id) {
    (w'.vans == w.vans && w'.users == w.users) ||
    match req
    case CreateVan(_, p, d) =>
      (d.Some? ==> Usable(w, req.school, d.value, DRIVER)) && newId !in w.vans && !PlateTaken(w, Upper(p), None) &&
      w'.users == w.users && w'.vans == w.vans[newId := Van(req.school, Upper(p), d, true, false)]
    case UpdateVan(_, v, p, _, _) =>
      Accepts(w, req) && (p.Some? ==> !PlateTaken(w, Upper(p.value), Some(v))) &&
      w'.users == w.users && w'.vans == w.vans[v := UpdatedVan(w.vans[v], req)]
    case AssignDriver(_, v, d) =>
      Accepts(w, req) && w'.users == w.users && w'.vans == w.vans[v := w.vans[v].(driver := Some(d))]
    case RemoveVan(_, v) =>
      v in w.vans && w'.users == w.users && w'.vans == w.vans[v := w.vans[v].(active := false, deleted := true)]
    case UnassignDriver(_, v) =>
      v in w.vans && w'.users == w.users && w'.vans == w.vans[v := w.vans[v].(driver := None)]
    case CreateDriver(_, e) =>
      newId !in w.users && w'.vans == w.vans && w'.users == w.users[newId := User(req.school, Lower(e), DRIVER, true, false)]
    case UpdateDriver(_, d, a) =>
      d in w.users && a.Some? && w'.vans == w.vans && w'.users == w.users[d := w.users[d].(active := a.value)]
    case RemoveDriver(_, d) =>
      UserIn(w, d, req.school) && w'.vans == WithoutDriver(w.vans, req.school, d) &&
      w'.users == w.users[d := w.users[d].(active := false, deleted := true)]
    case _ => false
  }

  lemma VanFleet(w: World, req: Request, now: nat, newId: Id)
    requires OfVans(req)
    ensures FleetStep(w, Serve(w, req, now, newId).0, req, newId)
  {
    hide Serve, Upper, PlateTakenInSchool, Usable, DriverBusy;
    if req.CreateVan? {
      CreateVanAlone(w, req, now, newId);
    } else if req.UpdateVan? {
      UpdateVanAlone(w, req, now, newId);
    } else if req.AssignDriver? {
      AssignDriverAlone(w, req, now, newId);
    } else {
      RetireOrUnassignAlone(w, req, now, newId);
    }
  }

  lemma ServeFleet(w: World, req: Request, now: nat, newId: Id)
    ensures FleetStep(w, Serve(w, req, now, newId).0, req, newId)
  {
    hide Drive;
    if OfVans(req) {
      VanFleet(w, req, now, newId);
    } else if OfFleet(req) {
      DriverHandlersAlone(w, req, now, newId);
      if req.UpdateDriver? && req.newActive.None? && req.driver in w.users {
        assert w.users[req.driver := w.users[req.driver]] == w.users;
      }
    } else {
      OthersKeepFleet(w, Opened(req), now, newId);
    }
  }

  lemma ServeKeepsDriversPresent(w: World, req: Request, now: nat, newId: Id)
    requires VansClosed(w) && DriversPresent(w)
    ensures DriversPresent(Serve(w, req, now, newId).0)
  {
    ServeFleet(w, req, now, newId);
    hide Serve;
  }

  lemma OnePlateStays(w: World, v: Id, row: Van)
    requires PlatesLawful(w) && row.plate == Upper(row.plate)
    requires forall x | x in w.vans && x != v :: w.vans[x].plate != row.plate
    ensures PlatesLawful(w.(vans := w.vans[v := row]))
  {
    hide Upper;
  }

  lemma SamePlatesStay(w: World, w': World)
    requires PlatesLawful(w) && w'.vans.Keys == w.vans.Keys
    requires forall v <- w.vans :: w'.vans[v].plate == w.vans[v].plate
    ensures PlatesLawful(w')
  {
    hide Upper;
  }

  lemma ServeKeepsPlates(w: World, req: Request, now: nat, newId: Id)
    requires PlatesLawful(w)
    ensures PlatesLawful(Serve(w, req, now, newId).0)
  {
    hide Serve, PlatesLawful, Upper, Usable, DriverBusy;
    ServeFleet(w, req, now, newId);
    var w' := Serve(w, req, now, newId).0;
    if w'.vans == w.vans {
      SamePlatesStay(w, w');
    } else if req.CreateVan? {
      UpperTwice(req.plate);
      OnePlateStays(w, newId, w'.vans[newId]);
      SamePlatesStay(w.(vans := w'.vans), w');
    } else if req.UpdateVan? && req.newPlate.Some? {
      UpperTwice(req.newPlate.value);
      OnePlateStays(w, req.van, w'.vans[req.van]);
      SamePlatesStay(w.(vans := w'.vans), w');
    } else {
      SamePlatesStay(w, w');
    }
  }

  lemma UpperTwice(s: string)
    ensures Upper(Upper(s)) == Upper(s)
  {
  }

  // The two ways around the check that a driver is free: create does not make it, and an update that
  // puts a van back on duty without naming a driver keeps the old one unchecked.
  predicate Doubles(w: World, req: Request, newId: Id) {
    (req.CreateVan? && req.driverOpt.Some? && DriverBusy(w, req.school, req.driverOpt.value, newId)) ||
    (req.UpdateVan? && req.driverOpt.None? && req.newActive == Some(true) &&
     req.van in w.vans && w.vans[req.van].driver.Some? && !w.vans[req.van].active &&
     DriverBusy(w, req.school, w.vans[req.van].driver.value, req.van))
  }

  // The guards a create or an update of a van passes before it writes.
  predicate Passes(w: World, req: Request, newId: Id) {
    (req.CreateVan? ==>
       (req.driverOpt.Some? ==> Usable(w, req.school, req.driverOpt.value, DRIVER)) &&
       newId !in w.vans && !PlateTaken(w, Upper(req.plate), None)) &&
    (req.UpdateVan? ==> Accepts(w, req) && PlateStores(w, req))
  }

  // Served one at a time, a request leaves two vans on duty with one driver exactly when it passes its
  // guards and takes one of those two ways.
  lemma DoubleAssignmentIff(w: World, req: Request, now: nat, newId: Id)
    requires VansClosed(w) && OneVanPerDriver(w)
    ensures OneVanPerDriver(Serve(w, req, now, newId).0) <==> !(Doubles(w, req, newId) && Passes(w, req, newId))
  {
    if req.CreateVan? {
      CreateVanAlone(w, req, now, newId);
      hide Serve;
      CreatedVanDoubles(w, req, newId);
      TakenInSchoolIsTaken(w, req.school, Upper(req.plate), None);
    } else if req.UpdateVan? {
      UpdateVanAlone(w, req, now, newId);
      hide Serve;
      if Passes(w, req, newId) {
        if req.newPlate.Some? {
          TakenInSchoolIsTaken(w, req.school, Upper(req.newPlate.value), Some(req.van));
        }
        UpdatedVanDoubles(w, req, newId);
      }
    } else {
      ServeFleet(w, req, now, newId);
      hide Serve;
    }
  }

  lemma TakenInSchoolIsTaken(w: World, school: Id, plate: string, except: Option<Id>)
    ensures PlateTakenInSchool(w, school, plate, except) ==> PlateTaken(w, plate, except)
  {
  }

  lemma CreatedVanDoubles(w: World, req: Request, newId: Id)
    requires VansClosed(w) && OneVanPerDriver(w) && req.CreateVan?
    ensures Passes(w, req, newId) ==>
              (OneVanPerDriver(w.(vans := w.vans[newId := Van(req.school, Upper(req.plate), req.driverOpt, true, false)]))
               <==> !Doubles(w, req, newId))
  {
    hide PlateTaken, Upper;
    var w' := w.(vans := w.vans[newId := Van(req.school, Upper(req.plate), req.driverOpt, true, false)]);
    if Passes(w, req, newId) && Doubles(w, req, newId) {
      var v :| v in w.vans && v != newId && w.vans[v].driver == req.driverOpt && OnDuty(w.vans[v]);
      assert w'.vans[v].driver == w'.vans[newId].driver;
    }
  }

  lemma UpdatedVanDoubles(w: World, req: Request, newId: Id)
    requires VansClosed(w) && OneVanPerDriver(w) && req.UpdateVan? && Accepts(w, req)
    ensures OneVanPerDriver(w.(vans := w.vans[req.van := UpdatedVan(w.vans[req.van], req)])) <==> !Doubles(w, req, newId)
  {
    var w' := w.(vans := w.vans[req.van := UpdatedVan(w.vans[req.van], req)]);
    if Doubles(w, req, newId) {
      var v :| v in w.vans && v != req.van && w.vans[v].driver == w.vans[req.van].driver && OnDuty(w.vans[v]);
      assert w'.vans[v].driver == w'.vans[req.van].driver;
    }
  }

  // ---- runs ----

  datatype Job = Job(req: Request, now: nat, newId: Id)

  function ServeAll(w: World, jobs: seq<Job>): World {
    if jobs == [] then w else
      var j := jobs[|jobs| - 1];
      Serve(ServeAll(w, jobs[..|jobs| - 1]), j.req, j.now, j.newId).0
  }

  // Creates carry no driver, and updates that put a van on duty name its driver.
  predicate Cautious(req: Request) {
    (req.CreateVan? ==> req.driverOpt.None?) &&
    (req.UpdateVan? && req.newActive == Some(true) ==> req.driverOpt.Some?)
  }

  // Every run of all handlers keeps references inside schools, vans away from deleted drivers and
  // plates upper-case and different; every cautious run keeps one van on duty per driver.
  lemma {:induction false} FleetRuns(w: World, jobs: seq<Job>)
    requires Closed(w) && DriversPresent(w) && PlatesLawful(w)
    ensures var w' := ServeAll(w, jobs); Closed(w') && DriversPresent(w') && PlatesLawful(w')
    ensures OneVanPerDriver(w) && (forall i | 0 <= i < |jobs| :: Cautious(jobs[i].req)) ==> OneVanPerDriver(ServeAll(w, jobs))
  {
    hide Serve, DriversPresent, PlatesLawful, OneVanPerDriver;
    if jobs != [] {
      var j, before := jobs[|jobs| - 1], ServeAll(w, jobs[..|jobs| - 1]);
      FleetRuns(w, jobs[..|jobs| - 1]);
      ServeStaysClosed(before, j.req, j.now, j.newId);
      ServeKeepsDriversPresent(before, j.req, j.now, j.newId);
      ServeKeepsPlates(before, j.req, j.now, j.newId);
      if OneVanPerDriver(before) {
        DoubleAssignmentIff(before, j.req, j.now, j.newId);
      }
    }
  }

  lemma ServeStaysClosed(w: World, req: Request, now: nat, newId: Id)
    requires Closed(w)
    ensures Closed(Serve(w, req, now, newId).0)
  {
    hide Closed, Drive;
    OpenedKnowsNothing(w, req);
    DriveStaysClosed(w, Opened(req), now, newId);
  }

  // The service looks for a plate among the undeleted vans of its own school only. The database
  // refuses the rest: a plate of a deleted van, or of another school's van, is a raw database error.
  lemma PlateErrorIff(w: World, req: Request, now: nat, newId: Id)
    requires req.CreateVan? && newId !in w.vans
    ensures Serve(w, req, now, newId).1 == DatabaseError <==>
            (req.driverOpt.Some? ==> Usable(w, req.school, req.driverOpt.value, DRIVER)) &&
            !PlateTakenInSchool(w, req.school, Upper(req.plate), None) &&
            exists v | v in w.vans :: w.vans[v].plate == Upper(req.plate) && (w.vans[v].deleted || w.vans[v].school != req.school)
  {
    CreateVanAlone(w, req, now, newId);
    hide Serve;
    if PlateTaken(w, Upper(req.plate), None) {
      var v :| v in w.vans && w.vans[v].plate == Upper(req.plate);
      assert w.vans[v].deleted || w.vans[v].school != req.school || PlateTakenInSchool(w, req.school, Upper(req.plate), None);
    }
  }

  // The same of an update. The service does not look at all when the plate is empty or the van's own as
  // stored; otherwise it sees the undeleted vans of its school.
  lemma UpdatePlateErrorIff(w: World, req: Request, now: nat, newId: Id)
    requires req.UpdateVan?
    ensures Serve(w, req, now, newId).1 == DatabaseError <==>
            Accepts(w, req) && req.newPlate.Some? &&
            (exists v | v in w.vans && v != req.van :: w.vans[v].plate == Upper(req.newPlate.value)) &&
            (req.newPlate.value in {"", w.vans[req.van].plate} ||
             forall v | v in w.vans && v != req.van && w.vans[v].plate == Upper(req.newPlate.value) ::
               w.vans[v].deleted || w.vans[v].school != req.school)
  {
    UpdateVanAlone(w, req, now, newId);
    hide Serve;
  }

  // The two writes of a student's move, once van and student are checked.
  lemma MoveWrites(w: World, th: Thread, now: nat, newId: Id)
    requires th.req.UpdateStudent? && th.k == 2 && th.req.student in w.students
    requires VanChanges(th.req.vanPatch, th.locals.riderVan)
    ensures var req, rest := th.req, WithoutRiders(w.students, th.req.school, th.locals.riderVan, th.req.student);
            var row := rest[req.student].(van := Some(req.vanPatch.value),
              active := if req.newActive.Some? then req.newActive.value else rest[req.student].active);
            Drive(w, th, now, newId).0.students == rest[req.student := row]
  {
    var r := Call(w, th, now, newId);
    var w1, th1 := r.world, Later(th, r);
    assert Drive(w, th, now, newId) == Drive(w1, th1, now, newId);
    r := Call(w1, th1, now, newId);
    assert Drive(w1, th1, now, newId) == Drive(r.world, Later(th1, r), now, newId);
  }

  // Moving one student to another van takes every other student of the school off the old van, and
  // touches nobody else.
  lemma MovingOneStudentClearsTheVan(w: World, req: Request, now: nat, newId: Id, other: Id)
    requires req.UpdateStudent? && req.vanPatch.Set? && Serve(w, req, now, newId).1 == Done
    requires other in w.students && other != req.student && req.student in w.students
    requires w.students[req.student].van != Some(req.vanPatch.value)
    ensures var after := Serve(w, req, now, newId).0.students;
            req.student in after && after[req.student].van == Some(req.vanPatch.value) &&
            other in after &&
            after[other] == if w.students[other].school == req.school && w.students[other].van == w.students[req.student].van
                            then w.students[other].(van := None) else w.students[other]
  {
    var th := Opened(req);
    var r := Call(w, th, now, newId);
    if r.Next? {
      assert Serve(w, req, now, newId) == Drive(w, Later(th, r), now, newId);
      th := Later(th, r);
      r := Call(w, th, now, newId);
      if r.Next? {
        assert Drive(w, th, now, newId) == Drive(w, Later(th, r), now, newId);
        MoveWrites(w, Later(th, r), now, newId);
      }
    }
  }
}
