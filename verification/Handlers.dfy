// Every handler of the trip, van, driver and student services as the list of database and Redis
// calls it awaits, in order. One operation is one call: it either lets the handler go on or ends it.
module Handlers {
  import opened Options
  import opened Text
  import opened Schema

  // An update field that may be absent, null or a value.
  datatype Patch<T> = Keep | Clear | Set(value: T)

  datatype Request =
    | CreateTrip(school: Id, driver: Id, van: Id, route: Option<Id>)
    | StartTrip(school: Id, driver: Id, trip: Id, loc: Location)
    | EndTrip(school: Id, driver: Id, trip: Id, loc: Location)
    | MarkBoarding(school: Id, driver: Id, trip: Id, student: Id, drop: bool, key: Option<Id>, loc: Location)
    | MarkAbsent(school: Id, driver: Id, trip: Id, student: Id, key: Option<Id>)
    | ActivateSOS(school: Id, driver: Id, trip: Id, at: Option<Location>)
    | ResolveSOS(school: Id, driver: Id, trip: Id, willContinue: bool)
    | CreateVan(school: Id, plate: string, driverOpt: Option<Id>)
    | UpdateVan(school: Id, van: Id, newPlate: Option<string>, driverOpt: Option<Id>, newActive: Option<bool>)
    | RemoveVan(school: Id, van: Id)
    | AssignDriver(school: Id, van: Id, driver: Id)
    | UnassignDriver(school: Id, van: Id)
    | CreateDriver(school: Id, email: string)
    | UpdateDriver(school: Id, driver: Id, newActive: Option<bool>)
    | RemoveDriver(school: Id, driver: Id)
    | CreateStudent(school: Id, parent: Id, vanOpt: Option<Id>)
    | UpdateStudent(school: Id, student: Id, vanPatch: Patch<Id>, newActive: Option<bool>)
    | RemoveStudent(school: Id, student: Id)

  datatype Response =
    | Done
    | TripRow(trip: Trip)
    | LogRow(log: PickupLog)
    | NotFound
    | BadRequest
    | Conflict
    | DatabaseError

  // What a trip update writes: prisma.trip.update with these columns and no condition but the id.
  datatype TripWrite = WriteStart | WriteEnd | WriteSos | WriteResolve(willContinue: bool)

  datatype TripOp =
    | ReadTrip(trip: Id, driver: Id, allowed: set<Status>)
    | WriteTrip(trip: Id, write: TripWrite)
    | ReadRider(student: Id)
    | NoBoarding(trip: Id, student: Id)
    | CheckKey(key: Option<Id>)
    | InsertLog(trip: Id, student: Id, action: Action, key: Option<Id>)
    | InsertAlert(trip: Id, kind: AlertKind)
    | SetVanFix(at: Option<Location>)
    | SetTripFix(trip: Id, loc: Location)
    | DeleteActive(trip: Id)
    | ReadVanOfDriver(van: Id, driver: Id)
    | ReadRoute(routeOpt: Option<Id>)
    | InsertTrip(van: Id, route: Option<Id>, driver: Id)
    | SetActive

  datatype VanOp =
    | PlateFree(plate: string)
    | ReadVan(van: Id, needsDriver: bool)
    | PlateFreeForUpdate(van: Id, newPlate: Option<string>)
    | DriverUsable(driverOpt: Option<Id>)
    | DriverFree(driverOpt: Option<Id>, van: Id)
    | InsertVan(plate: string, driverOpt: Option<Id>)
    | WriteVan(van: Id, newPlate: Option<string>, driverOpt: Option<Id>, newActive: Option<bool>)
    | WriteVanDriver(van: Id, driverOpt: Option<Id>)
    | RetireVan(van: Id)

  datatype PersonOp =
    | EmailFree(email: string)
    | InsertDriver(email: string)
    | ReadDriver(driver: Id)
    | WriteDriver(driver: Id, newActive: Option<bool>)
    | RetireDriver(driver: Id)
    | UnassignEverywhere(driver: Id)
    | ParentUsable(parent: Id)
    | VanUsable(vanPatch: Patch<Id>)
    | InsertStudent(parent: Id, vanOpt: Option<Id>)
    | ReadStudent(student: Id)
    | ClearRoster(student: Id, vanPatch: Patch<Id>)
    | WriteStudent(student: Id, vanPatch: Patch<Id>, newActive: Option<bool>)
    | RetireStudent(student: Id)

  function BoardingAction(drop: bool): Action {
    if drop then DROPPED_OFF else PICKED_UP
  }

  predicate OfTrips(req: Request) {
    req.CreateTrip? || req.StartTrip? || req.EndTrip? || req.MarkBoarding? || req.MarkAbsent? ||
    req.ActivateSOS? || req.ResolveSOS?
  }

  // The request names an existing trip.
  predicate NamesTrip(req: Request) {
    OfTrips(req) && !req.CreateTrip?
  }

  // The request adds an attendance log.
  predicate Attends(req: Request) {
    req.MarkBoarding? || req.MarkAbsent?
  }

  predicate OfVans(req: Request) {
    req.CreateVan? || req.UpdateVan? || req.RemoveVan? || req.AssignDriver? || req.UnassignDriver?
  }

  // How many calls a handler makes.
  function Length(req: Request): nat {
    match req
    case CreateTrip(_, _, _, _) => 4
    case StartTrip(_, _, _, _) => 4
    case EndTrip(_, _, _, _) => 5
    case MarkBoarding(_, _, _, _, _, _, _) => 7
    case MarkAbsent(_, _, _, _, _) => 4
    case ActivateSOS(_, _, _, _) => 4
    case ResolveSOS(_, _, _, _) => 3
    case CreateVan(_, _, _) => 3
    case UpdateVan(_, _, _, _, _) => 5
    case AssignDriver(_, _, _) => 4
    case RemoveDriver(_, _) => 3
    case CreateStudent(_, _, _) => 3
    case UpdateStudent(_, _, _, _) => 4
    case _ => 2
  }

  function TripProgram(req: Request): (ops: seq<TripOp>)
    requires OfTrips(req)
    ensures |ops| == Length(req)
  {
    match req
    case CreateTrip(_, d, v, r) =>
      [ReadVanOfDriver(v, d), ReadRoute(r), InsertTrip(v, r, d), SetActive]
    case StartTrip(_, d, t, l) =>
      [ReadTrip(t, d, {NOT_STARTED}), WriteTrip(t, WriteStart), SetVanFix(Some(l)), SetTripFix(t, l)]
    case EndTrip(_, d, t, l) =>
      [ReadTrip(t, d, {IN_PROGRESS}), WriteTrip(t, WriteEnd), SetVanFix(Some(l)), SetTripFix(t, l), DeleteActive(t)]
    case MarkBoarding(_, d, t, s, drop, k, l) =>
      [ReadTrip(t, d, {IN_PROGRESS}), ReadRider(s), NoBoarding(t, s), CheckKey(k),
       InsertLog(t, s, BoardingAction(drop), k), SetVanFix(Some(l)), SetTripFix(t, l)]
    case MarkAbsent(_, d, t, s, k) =>
      [ReadTrip(t, d, {IN_PROGRESS}), ReadRider(s), NoBoarding(t, s), InsertLog(t, s, ABSENT, k)]
    case ActivateSOS(_, d, t, at) =>
      [ReadTrip(t, d, {NOT_STARTED, IN_PROGRESS}), WriteTrip(t, WriteSos), SetVanFix(at), InsertAlert(t, SOS)]
    case ResolveSOS(_, d, t, c) =>
      [ReadTrip(t, d, {SOS_ACTIVE}), WriteTrip(t, WriteResolve(c)), InsertAlert(t, SOS_RESOLVED)]
  }

  function VanProgram(req: Request): (ops: seq<VanOp>)
    requires OfVans(req)
    ensures |ops| == Length(req)
  {
    match req
    case CreateVan(_, p, d) =>
      [PlateFree(p), DriverUsable(d), InsertVan(p, d)]
    case UpdateVan(_, v, p, d, a) =>
      [ReadVan(v, false), PlateFreeForUpdate(v, p), DriverUsable(d), DriverFree(d, v), WriteVan(v, p, d, a)]
    case RemoveVan(_, v) =>
      [ReadVan(v, false), RetireVan(v)]
    case AssignDriver(_, v, d) =>
      [ReadVan(v, false), DriverUsable(Some(d)), DriverFree(Some(d), v), WriteVanDriver(v, Some(d))]
    case UnassignDriver(_, v) =>
      [ReadVan(v, true), WriteVanDriver(v, None)]
  }

  function PersonProgram(req: Request): (ops: seq<PersonOp>)
    requires !OfTrips(req) && !OfVans(req)
    ensures |ops| == Length(req)
  {
    match req
    case CreateDriver(_, e) =>
      [EmailFree(e), InsertDriver(e)]
    case UpdateDriver(_, d, a) =>
      [ReadDriver(d), WriteDriver(d, a)]
    case RemoveDriver(_, d) =>
      [ReadDriver(d), RetireDriver(d), UnassignEverywhere(d)]
    case CreateStudent(_, p, v) =>
      [ParentUsable(p), VanUsable(if v.Some? then Set(v.value) else Keep), InsertStudent(p, v)]
    case UpdateStudent(_, s, v, a) =>
      [ReadStudent(s), VanUsable(v), ClearRoster(s, v), WriteStudent(s, v, a)]
    case RemoveStudent(_, s) =>
      [ReadStudent(s), RetireStudent(s)]
  }

  // What a handler remembers between two calls: the van of the trip it read, the row of the van or
  // student it is updating, the id of the trip it created, and the answer it will return.
  datatype Locals = Locals(van: Id, plate: string, driver: Option<Id>, riderVan: Option<Id>,
                           made: Option<Id>, answer: Response)

  const FRESH_LOCALS := Locals(0, "", None, None, None, Done)

  datatype Step = Next(world: World, locals: Locals) | Stop(world: World, answer: Response)

  function TripAfter(r: Trip, write: TripWrite, now: nat): Trip {
    match write
    case WriteStart => r.(status := IN_PROGRESS, actualStart := Some(now))
    case WriteEnd => r.(status := COMPLETED, actualEnd := Some(now))
    case WriteSos => r.(status := SOS_ACTIVE)
    case WriteResolve(true) => r.(status := IN_PROGRESS)
    case WriteResolve(false) => r.(status := COMPLETED, actualEnd := Some(now))
  }

  predicate Boarded(logs: seq<PickupLog>, trip: Id, student: Id) {
    exists i | 0 <= i < |logs| ::
      logs[i].trip == trip && logs[i].student == student && logs[i].action.Boards()
  }

  predicate KeyUsed(logs: seq<PickupLog>, key: Id) {
    exists i | 0 <= i < |logs| :: logs[i].key == Some(key)
  }

  // pickupLog.findFirst by idempotencyKey: across all schools, trips, students and actions.
  function FindKey(logs: seq<PickupLog>, key: Id): (log: PickupLog)
    requires KeyUsed(logs, key)
    ensures log in logs && log.key == Some(key)
  {
    if logs[0].key == Some(key) then logs[0] else FindKey(logs[1..], key)
  }

  // The two unique indexes of pickup_logs.
  predicate LogAccepted(logs: seq<PickupLog>, log: PickupLog) {
    (log.key.Some? ==> !KeyUsed(logs, log.key.value)) &&
    forall i | 0 <= i < |logs| ::
      !(logs[i].school == log.school && logs[i].trip == log.trip &&
        logs[i].student == log.student && logs[i].takenAt == log.takenAt)
  }

  predicate PlateTaken(w: World, plate: string, except: Option<Id>) {
    exists v | v in w.vans :: w.vans[v].plate == plate && except != Some(v)
  }

  predicate PlateTakenInSchool(w: World, school: Id, plate: string, except: Option<Id>) {
    exists v | v in w.vans ::
      w.vans[v].plate == plate && w.vans[v].school == school && !w.vans[v].deleted && except != Some(v)
  }

  predicate EmailTaken(w: World, email: string) {
    exists u | u in w.users :: w.users[u].email == email
  }

  predicate EmailTakenInSchool(w: World, school: Id, email: string) {
    exists u | u in w.users :: w.users[u].email == email && w.users[u].school == school && !w.users[u].deleted
  }

  predicate DriverBusy(w: World, school: Id, driver: Id, van: Id) {
    exists v | v in w.vans ::
      v != van && w.vans[v].school == school && w.vans[v].driver == Some(driver) &&
      w.vans[v].active && !w.vans[v].deleted
  }

  predicate Usable(w: World, school: Id, user: Id, role: Role) {
    UserIn(w, user, school) && w.users[user].role == role && w.users[user].active && !w.users[user].deleted
  }

  // updateStudentDto.vanId && updateStudentDto.vanId !== student.vanId
  predicate VanChanges(vanPatch: Patch<Id>, riderVan: Option<Id>) {
    vanPatch.Set? && riderVan != Some(vanPatch.value)
  }

  function WithoutDriver(vans: map<Id, Van>, school: Id, driver: Id): map<Id, Van> {
    map v | v in vans ::
      if vans[v].driver == Some(driver) && vans[v].school == school then vans[v].(driver := None) else vans[v]
  }

  function WithoutRiders(students: map<Id, Student>, school: Id, van: Option<Id>, except: Id): map<Id, Student> {
    map s | s in students ::
      if students[s].school == school && students[s].van == van && s != except
      then students[s].(van := None) else students[s]
  }

  function Pass(ok: bool, w: World, l: Locals, refusal: Response): Step {
    if ok then Next(w, l) else Stop(w, refusal)
  }

  // One call of a handler of the given school; newId is the id the database generates for a new row.
  function ExecTrip(w: World, op: TripOp, l: Locals, school: Id, now: nat, newId: Id): Step {
    match op
    case ReadTrip(t, d, allowed) =>
      if TripIn(w, t, school) && w.trips[t].driver == d && w.trips[t].status in allowed && !w.trips[t].deleted
      then Next(w, l.(van := w.trips[t].van)) else Stop(w, NotFound)
    case WriteTrip(t, wr) =>
      if t !in w.trips then Stop(w, DatabaseError) else
        var r := TripAfter(w.trips[t], wr, now);
        Next(w.(trips := w.trips[t := r]), l.(answer := TripRow(r)))
    case ReadRider(s) =>
      Pass(StudentIn(w, s, school) && w.students[s].van == Some(l.van) &&
           w.students[s].active && !w.students[s].deleted, w, l, BadRequest)
    case NoBoarding(t, s) =>
      Pass(!Boarded(w.logs, t, s), w, l, Conflict)
    case CheckKey(k) =>
      if k.Some? && KeyUsed(w.logs, k.value) then Stop(w, LogRow(FindKey(w.logs, k.value))) else Next(w, l)
    case InsertLog(t, s, a, k) =>
      var log := PickupLog(school, t, s, a, k, now);
      if LogAccepted(w.logs, log) then Next(w.(logs := w.logs + [log]), l.(answer := LogRow(log)))
      else Stop(w, DatabaseError)
    case InsertAlert(t, k) =>
      Next(w.(alerts := w.alerts + [Alert(school, t, l.van, k)]), l)
    case SetVanFix(at) =>
      (match at
       case None => Next(w, l)
       case Some(loc) => Next(w.(fixes := w.fixes[l.van := Fix(school, loc, now + LOCATION_TTL)]), l))
    case SetTripFix(t, loc) =>
      Next(w.(fixes := w.fixes[t := Fix(school, loc, now + LOCATION_TTL)]), l)
    case DeleteActive(t) =>
      Next(w.(active := w.active - {t}), l)
    case ReadVanOfDriver(v, d) =>
      Pass(VanIn(w, v, school) && w.vans[v].active && w.vans[v].driver == Some(d) && !w.vans[v].deleted,
           w, l.(van := v), NotFound)
    case ReadRoute(r) =>
      Pass(r.Some? ==> RouteIn(w, r.value, school) && w.routes[r.value].active && !w.routes[r.value].deleted,
           w, l, NotFound)
    case InsertTrip(v, r, d) =>
      if newId in w.trips then Stop(w, DatabaseError) else
        var row := Trip(school, v, r, d, NOT_STARTED, None, None, now, false);
        Next(w.(trips := w.trips[newId := row]), l.(made := Some(newId), answer := TripRow(row)))
    case SetActive =>
      if l.made.None? then Stop(w, DatabaseError)
      else Next(w.(active := w.active[l.made.value := ActiveKey(l.van, school, now + ACTIVE_TRIP_TTL)]), l)
  }

  function ExecVan(w: World, op: VanOp, l: Locals, school: Id, newId: Id): Step {
    match op
    case PlateFree(p) =>
      Pass(!PlateTakenInSchool(w, school, Upper(p), None), w, l, Conflict)
    case ReadVan(v, needsDriver) =>
      if !(VanIn(w, v, school) && !w.vans[v].deleted) then Stop(w, NotFound)
      else if needsDriver && w.vans[v].driver.None? then Stop(w, BadRequest)
      else Next(w, l.(plate := w.vans[v].plate, driver := w.vans[v].driver))
    case PlateFreeForUpdate(v, p) =>
      Pass(p.None? || p.value == "" || p.value == l.plate ||
           !PlateTakenInSchool(w, school, Upper(p.value), Some(v)), w, l, Conflict)
    case DriverUsable(d) =>
      Pass(d.Some? ==> Usable(w, school, d.value, DRIVER), w, l, BadRequest)
    case DriverFree(d, v) =>
      Pass(d.Some? ==> !DriverBusy(w, school, d.value, v), w, l, BadRequest)
    case InsertVan(p, d) =>
      if newId in w.vans || PlateTaken(w, Upper(p), None) then Stop(w, DatabaseError)
      else Next(w.(vans := w.vans[newId := Van(school, Upper(p), d, true, false)]), l)
    case WriteVan(v, p, d, a) =>
      if v !in w.vans || (p.Some? && PlateTaken(w, Upper(p.value), Some(v))) then Stop(w, DatabaseError) else
        var row := w.vans[v].(
          plate := if p.Some? then Upper(p.value) else w.vans[v].plate,
          driver := if d.Some? then d else l.driver,
          active := if a.Some? then a.value else w.vans[v].active);
        Next(w.(vans := w.vans[v := row]), l)
    case WriteVanDriver(v, d) =>
      if v !in w.vans then Stop(w, DatabaseError)
      else Next(w.(vans := w.vans[v := w.vans[v].(driver := d)]), l)
    case RetireVan(v) =>
      if v !in w.vans then Stop(w, DatabaseError)
      else Next(w.(vans := w.vans[v := w.vans[v].(active := false, deleted := true)]), l)
  }

  function ExecPerson(w: World, op: PersonOp, l: Locals, school: Id, newId: Id): Step {
    match op
    case EmailFree(e) =>
      Pass(!EmailTakenInSchool(w, school, Lower(e)), w, l, Conflict)
    case InsertDriver(e) =>
      if newId in w.users || EmailTaken(w, Lower(e)) then Stop(w, DatabaseError)
      else Next(w.(users := w.users[newId := User(school, Lower(e), DRIVER, true, false)]), l)
    case ReadDriver(d) =>
      Pass(UserIn(w, d, school) && w.users[d].role == DRIVER && !w.users[d].deleted, w, l, NotFound)
    case WriteDriver(d, a) =>
      if d !in w.users then Stop(w, DatabaseError)
      else Next(if a.Some? then w.(users := w.users[d := w.users[d].(active := a.value)]) else w, l)
    case RetireDriver(d) =>
      if d !in w.users then Stop(w, DatabaseError)
      else Next(w.(users := w.users[d := w.users[d].(active := false, deleted := true)]), l)
    case UnassignEverywhere(d) =>
      Next(w.(vans := WithoutDriver(w.vans, school, d)), l)
    case ParentUsable(p) =>
      Pass(Usable(w, school, p, PARENT), w, l, Conflict)
    case VanUsable(v) =>
      Pass(VanChanges(v, l.riderVan) ==>
             VanIn(w, v.value, school) && w.vans[v.value].active && !w.vans[v.value].deleted, w, l, Conflict)
    case InsertStudent(p, v) =>
      if newId in w.students then Stop(w, DatabaseError)
      else Next(w.(students := w.students[newId := Student(school, p, v, true, false)]), l)
    case ReadStudent(s) =>
      if StudentIn(w, s, school) && !w.students[s].deleted
      then Next(w, l.(riderVan := w.students[s].van)) else Stop(w, NotFound)
    case ClearRoster(s, v) =>
      Next(if VanChanges(v, l.riderVan)
           then w.(students := WithoutRiders(w.students, school, l.riderVan, s)) else w, l)
    case WriteStudent(s, v, a) =>
      if s !in w.students then Stop(w, DatabaseError) else
        var row := w.students[s].(
          van := match v case Keep => w.students[s].van case Clear => None case Set(x) => Some(x),
          active := if a.Some? then a.value else w.students[s].active);
        Next(w.(students := w.students[s := row]), l)
    case RetireStudent(s) =>
      if s !in w.students then Stop(w, DatabaseError)
      else Next(w.(students := w.students[s := w.students[s].(active := false, deleted := true, van := None)]), l)
  }

  // A request being handled: it has made its first k calls.
  datatype Thread = Thread(req: Request, k: nat, locals: Locals) {
    predicate Running() {
      k < Length(req)
    }
  }

  function Opened(req: Request): Thread {
    Thread(req, 0, FRESH_LOCALS)
  }

  // The next call.
  function Call(w: World, th: Thread, now: nat, newId: Id): Step
    requires th.Running()
  {
    var req, k, l := th.req, th.k, th.locals;
    if OfTrips(req) then ExecTrip(w, TripProgram(req)[k], l, req.school, now, newId)
    else if OfVans(req) then ExecVan(w, VanProgram(req)[k], l, req.school, newId)
    else ExecPerson(w, PersonProgram(req)[k], l, req.school, newId)
  }

  // The thread after a call that went through.
  function Later(th: Thread, r: Step): Thread
    requires r.Next?
  {
    Thread(th.req, th.k + 1, r.locals)
  }

  // The rest of a handler that runs alone, its calls one after the other at one clock reading.
  function Drive(w: World, th: Thread, now: nat, newId: Id): (World, Response)
    decreases Length(th.req) - th.k
  {
    if !th.Running() then (w, th.locals.answer) else
      match Call(w, th, now, newId)
      case Next(w', l') => Drive(w', Thread(th.req, th.k + 1, l'), now, newId)
      case Stop(w', r) => (w', r)
  }

  function Serve(w: World, req: Request, now: nat, newId: Id): (World, Response) {
    Drive(w, Opened(req), now, newId)
  }
}
