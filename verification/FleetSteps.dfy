// What each call of the fleet handlers makes of any van, user or student, in any state and whatever else is
// in flight: the row it leaves, or none, with nothing left open.
module FleetSteps {
  import opened Options
  import opened Text
  import opened Schema
  import opened Handlers
  import opened Frames
  import opened Machine

  // ---- vans ----

  predicate PlateElsewhere(w: World, plate: string, van: Id) {
    exists v <- w.vans :: v != van && w.vans[v].plate == plate
  }

  // The next call of the handler turns van v into row: only the handlers of the van itself change it, and the
  // clearing write of a removal, which takes that driver off and no other.
  predicate VanTurns(w: World, th: Thread, v: Id, row: Van)
    requires v in w.vans
  {
    var was := w.vans[v];
    match th.req
    case UpdateVan(_, van, plate, driver, active) =>
      row == if van == v && th.k == 4 && (plate.Some? ==> !PlateElsewhere(w, Upper(plate.value), v))
             then Van(was.school, if plate.Some? then Upper(plate.value) else was.plate,
                      if driver.Some? then driver else th.locals.driver, if active.Some? then active.value else was.active, was.deleted)
             else was
    case RemoveVan(_, van) =>
      row == if van == v && th.k == 1 then Van(was.school, was.plate, was.driver, false, true) else was
    case AssignDriver(_, van, d) =>
      row == if van == v && th.k == 3 then Van(was.school, was.plate, Some(d), was.active, was.deleted) else was
    case UnassignDriver(_, van) =>
      row == if van == v && th.k == 1 then Van(was.school, was.plate, None, was.active, was.deleted) else was
    case RemoveDriver(school, d) =>
      row == if th.k == 2 && was.school == school && was.driver == Some(d)
             then Van(was.school, was.plate, None, was.active, was.deleted) else was
    case _ => row == was
  }

  // The call adds a van with that id, and which.
  predicate VanAdded(w: World, th: Thread, newId: Id, v: Id, w': World) {
    if th.req.CreateVan? && th.k == 2 && v == newId && forall x <- w.vans :: w.vans[x].plate != Upper(th.req.plate)
    then v in w'.vans && w'.vans[v] == Van(th.req.school, Upper(th.req.plate), th.req.driverOpt, true, false)
    else v !in w'.vans
  }

  lemma VanOpOnVans(w: World, op: VanOp, l: Locals, school: Id, newId: Id, v: Id)
    ensures var w' := ExecVan(w, op, l, school, newId).world;
            if v in w.vans
            then v in w'.vans && var was := w.vans[v];
                 w'.vans[v] == match op
                   case WriteVan(van, plate, driver, active) =>
                     if van == v && (plate.Some? ==> !PlateElsewhere(w, Upper(plate.value), v))
                     then Van(was.school, if plate.Some? then Upper(plate.value) else was.plate,
                              if driver.Some? then driver else l.driver, if active.Some? then active.value else was.active, was.deleted)
                     else was
                   case WriteVanDriver(van, driver) =>
                     if van == v then Van(was.school, was.plate, driver, was.active, was.deleted) else was
                   case RetireVan(van) => if van == v then Van(was.school, was.plate, was.driver, false, true) else was
                   case _ => was
            else if op.InsertVan? && v == newId && forall x <- w.vans :: w.vans[x].plate != Upper(op.plate)
            then v in w'.vans && w'.vans[v] == Van(school, Upper(op.plate), op.driverOpt, true, false)
            else v !in w'.vans
  {
    hide Upper, PlateTakenInSchool, Usable, DriverBusy;
  }

  lemma VanCallOnVans(w: World, th: Thread, newId: Id, v: Id)
    requires th.Running() && OfVans(th.req)
    ensures var w' := ExecVan(w, VanProgram(th.req)[th.k], th.locals, th.req.school, newId).world;
            if v in w.vans then v in w'.vans && VanTurns(w, th, v, w'.vans[v]) else VanAdded(w, th, newId, v, w')
  {
    hide ExecVan, Upper, PlateElsewhere;
    VanOpOnVans(w, VanProgram(th.req)[th.k], th.locals, th.req.school, newId, v);
  }

  lemma PersonCallOnVans(w: World, th: Thread, newId: Id, v: Id)
    requires th.Running() && !OfTrips(th.req) && !OfVans(th.req)
    ensures var w' := ExecPerson(w, PersonProgram(th.req)[th.k], th.locals, th.req.school, newId).world;
            if v in w.vans then v in w'.vans && VanTurns(w, th, v, w'.vans[v]) else v !in w'.vans
  {
    PersonFrame(w, PersonProgram(th.req)[th.k], th.locals, th.req.school, newId);
    hide WithoutRiders;
  }

  lemma CallOnVans(w: World, th: Thread, now: nat, newId: Id, v: Id)
    requires th.Running()
    ensures var w' := Call(w, th, now, newId).world;
            if v in w.vans then v in w'.vans && VanTurns(w, th, v, w'.vans[v]) else VanAdded(w, th, newId, v, w')
  {
    hide ExecVan, ExecPerson, ExecTrip, Upper, VanProgram, TripProgram, PersonProgram, PlateElsewhere;
    if OfTrips(th.req) {
      TripFrame(w, TripProgram(th.req)[th.k], th.locals, th.req.school, now, newId);
    } else if OfVans(th.req) {
      VanCallOnVans(w, th, newId, v);
    } else {
      PersonCallOnVans(w, th, newId, v);
    }
  }

  // In any state of any run: an event that is no call changes no van, and a call leaves every van as VanTurns
  // and VanAdded say.
  lemma StepsOnVans(s: Sys, ev: Event, v: Id)
    ensures var w, w' := s.world, Tick(s, ev).world;
            if !Calls(s, ev) then w'.vans == w.vans
            else if v in w.vans then v in w'.vans && VanTurns(w, s.flight[ev.id], v, w'.vans[v])
            else VanAdded(w, s.flight[ev.id], ev.newId, v, w')
  {
    hide Call, Length, VanTurns, VanAdded;
    if Calls(s, ev) {
      CallOnVans(s.world, s.flight[ev.id], s.clock + ev.elapsed, ev.newId, v);
    } else {
      IdleChangesLittle(s, ev);
    }
  }

  // The clearing write of a removal: the driver's vans of the school lose their driver and nothing else, and
  // every other van is the same row.
  lemma ClearingTouchesOnlyItsDriver(s: Sys, ev: Event, v: Id)
    requires Calls(s, ev) && s.flight[ev.id].req.RemoveDriver? && s.flight[ev.id].k == 2 && v in s.world.vans
    ensures var was, req, vans' := s.world.vans[v], s.flight[ev.id].req, Tick(s, ev).world.vans;
            v in vans' &&
            vans'[v] == if was.driver == Some(req.driver) && was.school == req.school
                        then Van(was.school, was.plate, None, was.active, was.deleted) else was
  {
    hide Tick;
    StepsOnVans(s, ev, v);
  }

  // ---- users ----

  predicate UserTurns(th: Thread, u: Id, was: User, row: User) {
    match th.req
    case UpdateDriver(_, d, active) =>
      row == if d == u && th.k == 1 && active.Some? then User(was.school, was.email, was.role, active.value, was.deleted) else was
    case RemoveDriver(_, d) =>
      row == if d == u && th.k == 1 then User(was.school, was.email, was.role, false, true) else was
    case _ => row == was
  }

  predicate UserAdded(w: World, th: Thread, newId: Id, u: Id, w': World) {
    if th.req.CreateDriver? && th.k == 1 && u == newId && forall x <- w.users :: w.users[x].email != Lower(th.req.email)
    then u in w'.users && w'.users[u] == User(th.req.school, Lower(th.req.email), DRIVER, true, false)
    else u !in w'.users
  }

  lemma PersonOpOnUsers(w: World, op: PersonOp, l: Locals, school: Id, newId: Id, u: Id)
    ensures var w' := ExecPerson(w, op, l, school, newId).world;
            if u in w.users
            then u in w'.users && var was := w.users[u];
                 w'.users[u] == match op
                   case WriteDriver(d, active) =>
                     if d == u && active.Some? then User(was.school, was.email, was.role, active.value, was.deleted) else was
                   case RetireDriver(d) => if d == u then User(was.school, was.email, was.role, false, true) else was
                   case _ => was
            else if op.InsertDriver? && u == newId && forall x <- w.users :: w.users[x].email != Lower(op.email)
            then u in w'.users && w'.users[u] == User(school, Lower(op.email), DRIVER, true, false)
            else u !in w'.users
  {
    hide WithoutDriver, WithoutRiders, Lower, Usable, EmailTakenInSchool;
  }

  lemma PersonCallOnUsers(w: World, th: Thread, newId: Id, u: Id)
    requires th.Running() && !OfTrips(th.req) && !OfVans(th.req)
    ensures var w' := ExecPerson(w, PersonProgram(th.req)[th.k], th.locals, th.req.school, newId).world;
            if u in w.users then u in w'.users && UserTurns(th, u, w.users[u], w'.users[u]) else UserAdded(w, th, newId, u, w')
  {
    hide ExecPerson, Lower;
    PersonOpOnUsers(w, PersonProgram(th.req)[th.k], th.locals, th.req.school, newId, u);
  }

  lemma CallOnUsers(w: World, th: Thread, now: nat, newId: Id, u: Id)
    requires th.Running()
    ensures var w' := Call(w, th, now, newId).world;
            if u in w.users then u in w'.users && UserTurns(th, u, w.users[u], w'.users[u]) else UserAdded(w, th, newId, u, w')
  {
    hide ExecVan, ExecPerson, ExecTrip, VanProgram, TripProgram, PersonProgram, Lower;
    if OfTrips(th.req) {
      TripFrame(w, TripProgram(th.req)[th.k], th.locals, th.req.school, now, newId);
    } else if OfVans(th.req) {
      VanFrame(w, VanProgram(th.req)[th.k], th.locals, th.req.school, newId);
    } else {
      PersonCallOnUsers(w, th, newId, u);
    }
  }

  lemma StepsOnUsers(s: Sys, ev: Event, u: Id)
    ensures var w, w' := s.world, Tick(s, ev).world;
            if !Calls(s, ev) then w'.users == w.users
            else if u in w.users then u in w'.users && UserTurns(s.flight[ev.id], u, w.users[u], w'.users[u])
            else UserAdded(w, s.flight[ev.id], ev.newId, u, w')
  {
    hide Call, Length, UserTurns, UserAdded;
    if Calls(s, ev) {
      CallOnUsers(s.world, s.flight[ev.id], s.clock + ev.elapsed, ev.newId, u);
    } else {
      IdleChangesLittle(s, ev);
    }
  }

  // ---- students ----

  // An update of a student writes that student's row, and before that, if it changes the van, takes all
  // others of the school off the van it has read; a removal takes the student off its own.
  predicate StudentTurns(th: Thread, s: Id, was: Student, row: Student) {
    match th.req
    case UpdateStudent(school, student, van, active) =>
      row == if student == s && th.k == 3
             then Student(was.school, was.parent, (match van case Keep => was.van case Clear => None case Set(v) => Some(v)),
                          if active.Some? then active.value else was.active, was.deleted)
             else if student != s && th.k == 2 && van.Set? && th.locals.riderVan != Some(van.value) &&
                     was.school == school && was.van == th.locals.riderVan
             then Student(was.school, was.parent, None, was.active, was.deleted) else was
    case RemoveStudent(_, student) =>
      row == if student == s && th.k == 1 then Student(was.school, was.parent, None, false, true) else was
    case _ => row == was
  }

  predicate StudentAdded(th: Thread, newId: Id, s: Id, w': World) {
    if th.req.CreateStudent? && th.k == 2 && s == newId
    then s in w'.students && w'.students[s] == Student(th.req.school, th.req.parent, th.req.vanOpt, true, false)
    else s !in w'.students
  }

  lemma PersonOpOnStudents(w: World, op: PersonOp, l: Locals, school: Id, newId: Id, s: Id)
    ensures var w' := ExecPerson(w, op, l, school, newId).world;
            if s in w.students
            then s in w'.students && var was := w.students[s];
                 w'.students[s] == match op
                   case ClearRoster(student, van) =>
                     if student != s && van.Set? && l.riderVan != Some(van.value) && was.school == school && was.van == l.riderVan
                     then Student(was.school, was.parent, None, was.active, was.deleted) else was
                   case WriteStudent(student, van, active) =>
                     if student == s
                     then Student(was.school, was.parent, (match van case Keep => was.van case Clear => None case Set(v) => Some(v)),
                                  if active.Some? then active.value else was.active, was.deleted) else was
                   case RetireStudent(student) => if student == s then Student(was.school, was.parent, None, false, true) else was
                   case _ => was
            else if op.InsertStudent? && s == newId
            then s in w'.students && w'.students[s] == Student(school, op.parent, op.vanOpt, true, false)
            else s !in w'.students
  {
    hide WithoutDriver, Lower, Usable, EmailTaken, EmailTakenInSchool;
  }

  lemma PersonCallOnStudents(w: World, th: Thread, newId: Id, s: Id)
    requires th.Running() && !OfTrips(th.req) && !OfVans(th.req)
    ensures var w' := ExecPerson(w, PersonProgram(th.req)[th.k], th.locals, th.req.school, newId).world;
            if s in w.students then s in w'.students && StudentTurns(th, s, w.students[s], w'.students[s])
            else StudentAdded(th, newId, s, w')
  {
    hide ExecPerson;
    PersonOpOnStudents(w, PersonProgram(th.req)[th.k], th.locals, th.req.school, newId, s);
  }

  lemma CallOnStudents(w: World, th: Thread, now: nat, newId: Id, s: Id)
    requires th.Running()
    ensures var w' := Call(w, th, now, newId).world;
            if s in w.students then s in w'.students && StudentTurns(th, s, w.students[s], w'.students[s])
            else StudentAdded(th, newId, s, w')
  {
    hide ExecVan, ExecPerson, ExecTrip, VanProgram, TripProgram, PersonProgram;
    if OfTrips(th.req) {
      TripFrame(w, TripProgram(th.req)[th.k], th.locals, th.req.school, now, newId);
    } else if OfVans(th.req) {
      VanFrame(w, VanProgram(th.req)[th.k], th.locals, th.req.school, newId);
    } else {
      PersonCallOnStudents(w, th, newId, s);
    }
  }

  lemma StepsOnStudents(s: Sys, ev: Event, student: Id)
    ensures var w, w' := s.world, Tick(s, ev).world;
            if !Calls(s, ev) then w'.students == w.students
            else if student in w.students
            then student in w'.students && StudentTurns(s.flight[ev.id], student, w.students[student], w'.students[student])
            else StudentAdded(s.flight[ev.id], ev.newId, student, w')
  {
    hide Call, Length, StudentTurns, StudentAdded;
    if Calls(s, ev) {
      CallOnStudents(s.world, s.flight[ev.id], s.clock + ev.elapsed, ev.newId, student);
    } else {
      IdleChangesLittle(s, ev);
    }
  }
}
