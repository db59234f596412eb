// Tenant isolation under every interleaving: references never leave a school, and the requests of
// one school never change a row of another.
module Isolation {
  import opened Options
  import opened Schema
  import opened Handlers
  import opened Frames
  import opened Machine

  ghost predicate VansClosed(w: World) {
    forall v | v in w.vans && w.vans[v].driver.Some? :: UserIn(w, w.vans[v].driver.value, w.vans[v].school)
  }

  ghost predicate StudentsClosed(w: World) {
    forall s | s in w.students ::
      UserIn(w, w.students[s].parent, w.students[s].school) &&
      (w.students[s].van.Some? ==> VanIn(w, w.students[s].van.value, w.students[s].school))
  }

  ghost predicate TripsClosed(w: World) {
    forall t | t in w.trips ::
      VanIn(w, w.trips[t].van, w.trips[t].school) && UserIn(w, w.trips[t].driver, w.trips[t].school) &&
      (w.trips[t].route.Some? ==> RouteIn(w, w.trips[t].route.value, w.trips[t].school))
  }

  ghost predicate LogsClosed(w: World) {
    forall i | 0 <= i < |w.logs| ::
      TripIn(w, w.logs[i].trip, w.logs[i].school) && StudentIn(w, w.logs[i].student, w.logs[i].school)
  }

  ghost predicate AlertsClosed(w: World) {
    forall i | 0 <= i < |w.alerts| ::
      TripIn(w, w.alerts[i].trip, w.alerts[i].school) && VanIn(w, w.alerts[i].van, w.alerts[i].school)
  }

  ghost predicate ActiveClosed(w: World) {
    forall t | t in w.active :: TripIn(w, t, w.active[t].school) && VanIn(w, w.active[t].van, w.active[t].school)
  }

  // Every reference the four services keep stays inside one school.
  ghost predicate Closed(w: World) {
    VansClosed(w) && StudentsClosed(w) && TripsClosed(w) && LogsClosed(w) && AlertsClosed(w) && ActiveClosed(w)
  }

  // Rows are never removed and never change school.
  ghost predicate Grows(w: World, w': World) {
    (forall x | x in w.users :: UserIn(w', x, w.users[x].school)) &&
    (forall x | x in w.vans :: VanIn(w', x, w.vans[x].school)) &&
    (forall x | x in w.students :: StudentIn(w', x, w.students[x].school)) &&
    (forall x | x in w.routes :: RouteIn(w', x, w.routes[x].school)) &&
    (forall x | x in w.trips :: TripIn(w', x, w.trips[x].school))
  }

  // What a handler has learnt from its first k calls about the rows it will write or refer to.
  ghost predicate Learnt(w: World, th: Thread) {
    var k, l, sc := th.k, th.locals, th.req.school;
    match th.req
    case CreateTrip(_, d, v, r) =>
      (k >= 1 ==> VanIn(w, v, sc) && UserIn(w, d, sc) && l.van == v) &&
      (k >= 2 && r.Some? ==> RouteIn(w, r.value, sc)) &&
      (k >= 3 ==> l.made.Some? && TripIn(w, l.made.value, sc))
    case CreateVan(_, _, d) => k >= 2 && d.Some? ==> UserIn(w, d.value, sc)
    case UpdateVan(_, v, _, d, _) =>
      (k >= 1 ==> VanIn(w, v, sc) && (l.driver.Some? ==> UserIn(w, l.driver.value, sc))) &&
      (k >= 3 && d.Some? ==> UserIn(w, d.value, sc))
    case RemoveVan(_, v) => k >= 1 ==> VanIn(w, v, sc)
    case AssignDriver(_, v, d) => (k >= 1 ==> VanIn(w, v, sc)) && (k >= 2 ==> UserIn(w, d, sc))
    case UnassignDriver(_, v) => k >= 1 ==> VanIn(w, v, sc)
    case CreateDriver(_, _) => true
    case UpdateDriver(_, d, _) => k >= 1 ==> UserIn(w, d, sc)
    case RemoveDriver(_, d) => k >= 1 ==> UserIn(w, d, sc)
    case CreateStudent(_, p, v) =>
      (k >= 1 ==> UserIn(w, p, sc)) && (k >= 2 && v.Some? ==> VanIn(w, v.value, sc)) &&
      (k < 3 ==> l.riderVan.None?)
    case UpdateStudent(_, s, v, _) =>
      (k >= 1 ==> StudentIn(w, s, sc) && (l.riderVan.Some? ==> VanIn(w, l.riderVan.value, sc))) &&
      (k >= 2 && v.Set? ==> VanIn(w, v.value, sc))
    case RemoveStudent(_, s) => k >= 1 ==> StudentIn(w, s, sc)
    case _ =>
      (k >= 1 ==> TripIn(w, th.req.trip, sc) && VanIn(w, l.van, sc)) &&
      (Attends(th.req) && k >= 2 ==> StudentIn(w, th.req.student, sc))
  }

  ghost predicate Sound(s: Sys) {
    Closed(s.world) &&
    forall id | id in s.flight :: Learnt(s.world, s.flight[id])
  }

  lemma LearntLasts(w: World, w': World, th: Thread)
    requires Learnt(w, th) && Grows(w, w')
    ensures Learnt(w', th)
  {
  }

  lemma TripCallGrows(w: World, op: TripOp, l: Locals, school: Id, now: nat, newId: Id)
    ensures Grows(w, ExecTrip(w, op, l, school, now, newId).world)
  {
    TripFrame(w, op, l, school, now, newId);
    if op.WriteTrip? || op.InsertTrip? {
      assert forall t | t in w.trips :: TripIn(ExecTrip(w, op, l, school, now, newId).world, t, w.trips[t].school);
    }
  }

  lemma VanCallGrows(w: World, op: VanOp, l: Locals, school: Id, newId: Id)
    ensures Grows(w, ExecVan(w, op, l, school, newId).world)
  {
    VanFrame(w, op, l, school, newId);
  }

  lemma PersonCallGrows(w: World, op: PersonOp, l: Locals, school: Id, newId: Id)
    ensures Grows(w, ExecPerson(w, op, l, school, newId).world)
  {
    PersonFrame(w, op, l, school, newId);
  }

  // The facts one call relies on to keep references inside the school.
  ghost predicate TripNeeds(w: World, op: TripOp, l: Locals, sc: Id) {
    match op
    case WriteTrip(t, _) => TripIn(w, t, sc)
    case DeleteActive(t) => TripIn(w, t, sc)
    case InsertLog(t, s, _, _) => TripIn(w, t, sc) && StudentIn(w, s, sc)
    case InsertAlert(t, _) => TripIn(w, t, sc) && VanIn(w, l.van, sc)
    case SetActive => l.made.Some? && TripIn(w, l.made.value, sc) && VanIn(w, l.van, sc)
    case InsertTrip(v, r, d) => VanIn(w, v, sc) && UserIn(w, d, sc) && (r.Some? ==> RouteIn(w, r.value, sc))
    case _ => true
  }

  lemma TripCallKeepsTrips(w: World, op: TripOp, l: Locals, school: Id, now: nat, newId: Id)
    requires TripsClosed(w) && TripNeeds(w, op, l, school)
    ensures TripsClosed(ExecTrip(w, op, l, school, now, newId).world)
  {
    TripFrame(w, op, l, school, now, newId);
  }

  lemma TripCallKeepsEntries(w: World, op: TripOp, l: Locals, school: Id, now: nat, newId: Id)
    requires LogsClosed(w) && AlertsClosed(w) && ActiveClosed(w) && TripNeeds(w, op, l, school)
    ensures var w' := ExecTrip(w, op, l, school, now, newId).world;
            LogsClosed(w') && AlertsClosed(w') && ActiveClosed(w')
  {
    TripFrame(w, op, l, school, now, newId);
    TripCallGrows(w, op, l, school, now, newId);
  }

  lemma TripCallKeepsClosed(w: World, op: TripOp, l: Locals, school: Id, now: nat, newId: Id)
    requires Closed(w) && TripNeeds(w, op, l, school)
    ensures Closed(ExecTrip(w, op, l, school, now, newId).world)
  {
    TripFrame(w, op, l, school, now, newId);
    TripCallKeepsTrips(w, op, l, school, now, newId);
    TripCallKeepsEntries(w, op, l, school, now, newId);
  }

  ghost predicate VanNeeds(w: World, op: VanOp, l: Locals, sc: Id) {
    match op
    case InsertVan(_, d) => d.Some? ==> UserIn(w, d.value, sc)
    case WriteVan(v, _, d, _) =>
      VanIn(w, v, sc) && (d.Some? ==> UserIn(w, d.value, sc)) && (l.driver.Some? ==> UserIn(w, l.driver.value, sc))
    case WriteVanDriver(v, d) => VanIn(w, v, sc) && (d.Some? ==> UserIn(w, d.value, sc))
    case RetireVan(v) => VanIn(w, v, sc)
    case _ => true
  }

  lemma VanCallKeepsClosed(w: World, op: VanOp, l: Locals, school: Id, newId: Id)
    requires Closed(w) && VanNeeds(w, op, l, school)
    ensures Closed(ExecVan(w, op, l, school, newId).world)
  {
    VanFrame(w, op, l, school, newId);
    VanCallGrows(w, op, l, school, newId);
  }

  ghost predicate PersonNeeds(w: World, op: PersonOp, l: Locals, sc: Id) {
    match op
    case InsertStudent(p, v) => UserIn(w, p, sc) && (v.Some? ==> VanIn(w, v.value, sc))
    case WriteStudent(s, v, _) => StudentIn(w, s, sc) && (v.Set? ==> VanIn(w, v.value, sc))
    case RetireStudent(s) => StudentIn(w, s, sc)
    case WriteDriver(d, _) => UserIn(w, d, sc)
    case RetireDriver(d) => UserIn(w, d, sc)
    case _ => true
  }

  lemma PersonCallKeepsRows(w: World, op: PersonOp, l: Locals, school: Id, newId: Id)
    requires VansClosed(w) && StudentsClosed(w) && PersonNeeds(w, op, l, school)
    ensures var w' := ExecPerson(w, op, l, school, newId).world; VansClosed(w') && StudentsClosed(w')
  {
    PersonFrame(w, op, l, school, newId);
    PersonCallGrows(w, op, l, school, newId);
  }

  lemma PersonCallKeepsClosed(w: World, op: PersonOp, l: Locals, school: Id, newId: Id)
    requires Closed(w) && PersonNeeds(w, op, l, school)
    ensures Closed(ExecPerson(w, op, l, school, newId).world)
  {
    PersonFrame(w, op, l, school, newId);
    PersonCallGrows(w, op, l, school, newId);
    PersonCallKeepsRows(w, op, l, school, newId);
  }

  // What a handler has learnt is what its next call needs.
  lemma TripKnows(w: World, th: Thread)
    requires th.Running() && OfTrips(th.req) && Learnt(w, th)
    ensures TripNeeds(w, TripProgram(th.req)[th.k], th.locals, th.req.school)
  {
  }

  lemma VanKnows(w: World, th: Thread)
    requires th.Running() && OfVans(th.req) && Learnt(w, th)
    ensures VanNeeds(w, VanProgram(th.req)[th.k], th.locals, th.req.school)
  {
  }

  lemma PersonKnows(w: World, th: Thread)
    requires th.Running() && !OfTrips(th.req) && !OfVans(th.req) && Learnt(w, th)
    ensures PersonNeeds(w, PersonProgram(th.req)[th.k], th.locals, th.req.school)
  {
  }

  // A call that goes through teaches the handler what it checked.
  lemma CreationLearns(w: World, th: Thread, now: nat, newId: Id)
    requires th.Running() && th.req.CreateTrip? && Closed(w) && Learnt(w, th)
    ensures var r := Call(w, th, now, newId);
            r.Next? ==> Learnt(r.world, Thread(th.req, th.k + 1, r.locals))
  {
    hide TripProgram;
    CreationCalls(th.req, th.k);
    TripCallGrows(w, TripProgram(th.req)[th.k], th.locals, th.req.school, now, newId);
  }

  lemma CreationCalls(req: Request, k: nat)
    requires req.CreateTrip? && k < Length(req)
    ensures TripProgram(req)[k]
            == if k == 0 then ReadVanOfDriver(req.van, req.driver) else if k == 1 then ReadRoute(req.route)
               else if k == 2 then InsertTrip(req.van, req.route, req.driver) else SetActive
  {
  }

  lemma FirstCallLearns(w: World, th: Thread, now: nat, newId: Id)
    requires NamesTrip(th.req) && th.k == 0 && th.Running() && Closed(w)
    ensures var r := Call(w, th, now, newId);
            r.Next? ==> r.world == w && Learnt(w, Thread(th.req, 1, r.locals))
  {
  }

  lemma RiderLearnt(w: World, th: Thread, now: nat, newId: Id)
    requires th.Running() && Attends(th.req) && th.k == 1
    ensures var r := Call(w, th, now, newId);
            r.Next? ==> StudentIn(w, th.req.student, th.req.school)
  {
  }

  lemma TripLearns(w: World, th: Thread, now: nat, newId: Id)
    requires th.Running() && NamesTrip(th.req) && Closed(w) && Learnt(w, th)
    ensures var r := Call(w, th, now, newId);
            r.Next? ==> Learnt(r.world, Thread(th.req, th.k + 1, r.locals))
  {
    hide ExecTrip, TripProgram, Closed;
    TripCallGrows(w, TripProgram(th.req)[th.k], th.locals, th.req.school, now, newId);
    if th.k == 0 {
      FirstCallLearns(w, th, now, newId);
    } else {
      LocalsSettle(w, th, now, newId);
      if th.k == 1 && Attends(th.req) {
        RiderLearnt(w, th, now, newId);
      }
    }
  }

  lemma LocalsSettle(w: World, th: Thread, now: nat, newId: Id)
    requires th.Running() && NamesTrip(th.req) && th.k >= 1
    ensures var r := Call(w, th, now, newId); r.Next? ==> r.locals.van == th.locals.van
  {
  }

  lemma VanLearns(w: World, th: Thread, now: nat, newId: Id)
    requires th.Running() && OfVans(th.req) && Closed(w) && Learnt(w, th)
    ensures var r := Call(w, th, now, newId);
            r.Next? ==> Learnt(r.world, Thread(th.req, th.k + 1, r.locals))
  {
    VanCallGrows(w, VanProgram(th.req)[th.k], th.locals, th.req.school, newId);
  }

  lemma DriverLearns(w: World, th: Thread, now: nat, newId: Id)
    requires th.Running() && Learnt(w, th) && (th.req.CreateDriver? || th.req.UpdateDriver? || th.req.RemoveDriver?)
    ensures var r := Call(w, th, now, newId);
            r.Next? ==> Learnt(r.world, Thread(th.req, th.k + 1, r.locals))
  {
    PersonCallGrows(w, PersonProgram(th.req)[th.k], th.locals, th.req.school, newId);
  }

  lemma StudentLearns(w: World, th: Thread, now: nat, newId: Id)
    requires th.Running() && Closed(w) && Learnt(w, th)
    requires th.req.CreateStudent? || th.req.UpdateStudent? || th.req.RemoveStudent?
    ensures var r := Call(w, th, now, newId);
            r.Next? ==> Learnt(r.world, Thread(th.req, th.k + 1, r.locals))
  {
    PersonCallGrows(w, PersonProgram(th.req)[th.k], th.locals, th.req.school, newId);
  }

  lemma PersonLearns(w: World, th: Thread, now: nat, newId: Id)
    requires th.Running() && !OfTrips(th.req) && !OfVans(th.req) && Closed(w) && Learnt(w, th)
    ensures var r := Call(w, th, now, newId);
            r.Next? ==> Learnt(r.world, Thread(th.req, th.k + 1, r.locals))
  {
    hide Call, Learnt, Closed;
    if th.req.CreateDriver? || th.req.UpdateDriver? || th.req.RemoveDriver? {
      DriverLearns(w, th, now, newId);
    } else {
      StudentLearns(w, th, now, newId);
    }
  }

  lemma CallIsSound(w: World, th: Thread, now: nat, newId: Id)
    requires th.Running() && Closed(w) && Learnt(w, th)
    ensures var r := Call(w, th, now, newId);
            Closed(r.world) && Grows(w, r.world) &&
            (r.Next? ==> Learnt(r.world, Thread(th.req, th.k + 1, r.locals)))
  {
    var req, k, l := th.req, th.k, th.locals;
    if OfTrips(req) {
      TripKnows(w, th);
      TripCallGrows(w, TripProgram(req)[k], l, req.school, now, newId);
      TripCallKeepsClosed(w, TripProgram(req)[k], l, req.school, now, newId);
      if req.CreateTrip? { CreationLearns(w, th, now, newId); } else { TripLearns(w, th, now, newId); }
    } else if OfVans(req) {
      VanKnows(w, th);
      VanCallGrows(w, VanProgram(req)[k], l, req.school, newId);
      VanCallKeepsClosed(w, VanProgram(req)[k], l, req.school, newId);
      VanLearns(w, th, now, newId);
    } else {
      PersonKnows(w, th);
      PersonCallGrows(w, PersonProgram(req)[k], l, req.school, newId);
      PersonCallKeepsClosed(w, PersonProgram(req)[k], l, req.school, newId);
      PersonLearns(w, th, now, newId);
    }
  }

  lemma OpenedKnowsNothing(w: World, req: Request)
    ensures Learnt(w, Opened(req))
  {
  }

  lemma AfterIsSound(s: Sys, id: Id, r: Step, now: nat)
    requires Sound(s) && id in s.flight && Closed(r.world) && Grows(s.world, r.world)
    requires r.Next? ==> Learnt(r.world, Thread(s.flight[id].req, s.flight[id].k + 1, r.locals))
    ensures Sound(After(s, id, r, now))
  {
    forall other | other in s.flight
      ensures Learnt(r.world, s.flight[other])
    {
      LearntLasts(s.world, r.world, s.flight[other]);
    }
  }

  lemma IdleIsSound(s: Sys, ev: Event)
    requires Sound(s) && !Calls(s, ev)
    ensures Sound(Tick(s, ev))
  {
    IdleChangesLittle(s, ev);
    var s' := Tick(s, ev);
    hide Tick, Closed, Learnt;
    SameRowsClosed(s.world, s'.world);
    forall id | id in s'.flight
      ensures Learnt(s'.world, s'.flight[id])
    {
      if id in s.flight {
        LearntLasts(s.world, s'.world, s'.flight[id]);
      } else {
        OpenedKnowsNothing(s'.world, ev.req);
      }
    }
  }

  lemma SameRowsClosed(w: World, w': World)
    requires w' == w.(fixes := w'.fixes)
    ensures Closed(w) ==> Closed(w')
    ensures Grows(w, w')
  {
  }

  lemma TickIsSound(s: Sys, ev: Event)
    requires Sound(s)
    ensures Sound(Tick(s, ev))
  {
    hide Call, Learnt;
    if Calls(s, ev) {
      var now := s.clock + ev.elapsed;
      CallIsSound(s.world, s.flight[ev.id], now, ev.newId);
      AfterIsSound(s, ev.id, Call(s.world, s.flight[ev.id], now, ev.newId), now);
    } else {
      IdleIsSound(s, ev);
    }
  }

  // However the requests of all schools interleave, no reference ever crosses a school.
  lemma {:induction false} ReferencesStayInSchool(w: World, clock: nat, evs: seq<Event>)
    requires Closed(w)
    ensures Sound(Run(Quiet(w, clock), evs))
    ensures Closed(Run(Quiet(w, clock), evs).world)
  {
    if evs != [] {
      ReferencesStayInSchool(w, clock, evs[..|evs| - 1]);
      TickIsSound(Run(Quiet(w, clock), evs[..|evs| - 1]), evs[|evs| - 1]);
    }
  }

  function LogsOf(logs: seq<PickupLog>, school: Id): seq<PickupLog> {
    if logs == [] then [] else
      var last := logs[|logs| - 1];
      LogsOf(logs[..|logs| - 1], school) + if last.school == school then [last] else []
  }

  function AlertsOf(alerts: seq<Alert>, school: Id): seq<Alert> {
    if alerts == [] then [] else
      var last := alerts[|alerts| - 1];
      AlertsOf(alerts[..|alerts| - 1], school) + if last.school == school then [last] else []
  }

  ghost function UsersOf(w: World, school: Id): map<Id, User> {
    map x | x in w.users && w.users[x].school == school :: w.users[x]
  }

  ghost function VansOf(w: World, school: Id): map<Id, Van> {
    map x | x in w.vans && w.vans[x].school == school :: w.vans[x]
  }

  ghost function StudentsOf(w: World, school: Id): map<Id, Student> {
    map x | x in w.students && w.students[x].school == school :: w.students[x]
  }

  ghost function TripsOf(w: World, school: Id): map<Id, Trip> {
    map x | x in w.trips && w.trips[x].school == school :: w.trips[x]
  }

  ghost function ActiveOf(w: World, school: Id): map<Id, ActiveKey> {
    map x | x in w.active && w.active[x].school == school :: w.active[x]
  }

  // Everything a school has: its rows, its logs and alerts in order, its active-trip keys.
  ghost predicate SameFor(w: World, w': World, school: Id) {
    UsersOf(w, school) == UsersOf(w', school) && VansOf(w, school) == VansOf(w', school) &&
    StudentsOf(w, school) == StudentsOf(w', school) && w.routes == w'.routes &&
    TripsOf(w, school) == TripsOf(w', school) && ActiveOf(w, school) == ActiveOf(w', school) &&
    LogsOf(w.logs, school) == LogsOf(w'.logs, school) && AlertsOf(w.alerts, school) == AlertsOf(w'.alerts, school)
  }

  lemma TripRowsStay(w: World, op: TripOp, l: Locals, school: Id, now: nat, newId: Id, other: Id)
    requires ActiveClosed(w) && TripNeeds(w, op, l, school) && other != school
    ensures var w' := ExecTrip(w, op, l, school, now, newId).world;
            TripsOf(w, other) == TripsOf(w', other) && ActiveOf(w, other) == ActiveOf(w', other)
  {
    TripFrame(w, op, l, school, now, newId);
  }

  lemma TripEntriesStay(w: World, op: TripOp, l: Locals, school: Id, now: nat, newId: Id, other: Id)
    requires other != school
    ensures var w' := ExecTrip(w, op, l, school, now, newId).world;
            LogsOf(w.logs, other) == LogsOf(w'.logs, other) && AlertsOf(w.alerts, other) == AlertsOf(w'.alerts, other)
  {
    TripFrame(w, op, l, school, now, newId);
    var w' := ExecTrip(w, op, l, school, now, newId).world;
    if op.InsertLog? && w'.logs != w.logs {
      assert w'.logs[..|w'.logs| - 1] == w.logs;
    } else if op.InsertAlert? {
      assert w'.alerts[..|w'.alerts| - 1] == w.alerts;
    }
  }

  lemma TripStaysHome(w: World, op: TripOp, l: Locals, school: Id, now: nat, newId: Id, other: Id)
    requires ActiveClosed(w) && TripNeeds(w, op, l, school) && other != school
    ensures SameFor(w, ExecTrip(w, op, l, school, now, newId).world, other)
  {
    TripFrame(w, op, l, school, now, newId);
    TripRowsStay(w, op, l, school, now, newId, other);
    TripEntriesStay(w, op, l, school, now, newId, other);
    hide ExecTrip, TripNeeds;
  }

  lemma VanStaysHome(w: World, op: VanOp, l: Locals, school: Id, newId: Id, other: Id)
    requires VanNeeds(w, op, l, school) && other != school
    ensures SameFor(w, ExecVan(w, op, l, school, newId).world, other)
  {
    VanFrame(w, op, l, school, newId);
    assert VansOf(ExecVan(w, op, l, school, newId).world, other) == VansOf(w, other);
  }

  lemma PersonRowsStay(w: World, op: PersonOp, l: Locals, school: Id, newId: Id, other: Id)
    requires PersonNeeds(w, op, l, school) && other != school
    ensures var w' := ExecPerson(w, op, l, school, newId).world;
            UsersOf(w, other) == UsersOf(w', other) && VansOf(w, other) == VansOf(w', other)
  {
    PersonFrame(w, op, l, school, newId);
  }

  lemma RosterStays(w: World, students: map<Id, Student>, school: Id, van: Option<Id>, except: Id, other: Id)
    requires other != school && students == WithoutRiders(w.students, school, van, except)
    ensures StudentsOf(w, other) == StudentsOf(w.(students := students), other)
  {
  }

  lemma OneStudentStays(w: World, s: Id, row: Student, school: Id, other: Id)
    requires other != school && row.school == school && (s in w.students ==> w.students[s].school == school)
    ensures StudentsOf(w, other) == StudentsOf(w.(students := w.students[s := row]), other)
  {
  }

  lemma StudentRowsStay(w: World, op: PersonOp, l: Locals, school: Id, newId: Id, other: Id)
    requires PersonNeeds(w, op, l, school) && other != school
    ensures StudentsOf(w, other) == StudentsOf(ExecPerson(w, op, l, school, newId).world, other)
  {
    hide StudentsOf;
    PersonFrame(w, op, l, school, newId);
    var w' := ExecPerson(w, op, l, school, newId).world;
    SameStudentsSame(w, w', other);
    match op
    case ClearRoster(s, _) =>
      RosterStays(w, WithoutRiders(w.students, school, l.riderVan, s), school, l.riderVan, s, other);
    case InsertStudent(_, _) =>
      if newId !in w.students { OneStudentStays(w, newId, w'.students[newId], school, other); }
    case WriteStudent(s, _, _) =>
      if s in w'.students { OneStudentStays(w, s, w'.students[s], school, other); }
    case RetireStudent(s) =>
      if s in w'.students { OneStudentStays(w, s, w'.students[s], school, other); }
    case _ =>
  }

  lemma SameStudentsSame(w: World, w': World, other: Id)
    ensures w'.students == w.students ==> StudentsOf(w, other) == StudentsOf(w', other)
  {
  }

  lemma PersonStaysHome(w: World, op: PersonOp, l: Locals, school: Id, newId: Id, other: Id)
    requires PersonNeeds(w, op, l, school) && other != school
    ensures SameFor(w, ExecPerson(w, op, l, school, newId).world, other)
  {
    PersonFrame(w, op, l, school, newId);
    PersonRowsStay(w, op, l, school, newId, other);
    StudentRowsStay(w, op, l, school, newId, other);
    hide ExecPerson, PersonNeeds;
  }

  lemma CallStaysHome(w: World, th: Thread, now: nat, newId: Id, other: Id)
    requires th.Running() && Closed(w) && Learnt(w, th) && other != th.req.school
    ensures SameFor(w, Call(w, th, now, newId).world, other)
  {
    var req, k, l := th.req, th.k, th.locals;
    if OfTrips(req) {
      TripKnows(w, th);
      TripStaysHome(w, TripProgram(req)[k], l, req.school, now, newId, other);
    } else if OfVans(req) {
      VanKnows(w, th);
      VanStaysHome(w, VanProgram(req)[k], l, req.school, newId, other);
    } else {
      PersonKnows(w, th);
      PersonStaysHome(w, PersonProgram(req)[k], l, req.school, newId, other);
    }
  }

  ghost predicate NoneFrom(evs: seq<Event>, school: Id) {
    forall i | 0 <= i < |evs| ::
      (evs[i].Arrive? ==> evs[i].req.school != school) && (evs[i].Ping? ==> evs[i].school != school)
  }

  // Requests of other schools, however they interleave, leave everything a school has as it was.
  lemma {:induction false} OtherSchoolsTouchNothing(w: World, clock: nat, evs: seq<Event>, school: Id)
    requires Closed(w) && NoneFrom(evs, school)
    ensures var s := Run(Quiet(w, clock), evs);
            SameFor(w, s.world, school) && forall id | id in s.flight :: s.flight[id].req.school != school
  {
    hide Call, Closed, Learnt, UsersOf, VansOf, StudentsOf, TripsOf, ActiveOf;
    if evs != [] {
      var before, ev := evs[..|evs| - 1], evs[|evs| - 1];
      OtherSchoolsTouchNothing(w, clock, before, school);
      ReferencesStayInSchool(w, clock, before);
      var s := Run(Quiet(w, clock), before);
      if Calls(s, ev) {
        CallStaysHome(s.world, s.flight[ev.id], s.clock + ev.elapsed, ev.newId, school);
      } else {
        IdleChangesLittle(s, ev);
        SameRowsSame(s.world, Tick(s, ev).world, school);
      }
    }
  }

  lemma SameRowsSame(w: World, w': World, school: Id)
    requires w' == w.(fixes := w'.fixes)
    ensures SameFor(w, w', school)
  {
  }
}
