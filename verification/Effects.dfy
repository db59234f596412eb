// What the calls of the trip handlers do to trips, logs, alerts and active keys, by position.
module Effects {
  import opened Options
  import opened Schema
  import opened Handlers
  import opened Frames

  // The position of a handler's main write: its trip update or the insertion of its log.
  function WriteAt(req: Request): nat {
    if req.MarkBoarding? then 4 else if req.MarkAbsent? then 3 else 1
  }

  predicate Writes(th: Thread) {
    NamesTrip(th.req) && th.k == WriteAt(th.req)
  }

  // Between the check of the trip and the write that relies on it.
  predicate InWindow(th: Thread) {
    NamesTrip(th.req) && 1 <= th.k <= WriteAt(th.req)
  }

  // The statuses in which the handler's first read finds the trip.
  function Guard(req: Request): set<Status>
    requires NamesTrip(req)
  {
    match req
    case StartTrip(_, _, _, _) => {NOT_STARTED}
    case ActivateSOS(_, _, _, _) => {NOT_STARTED, IN_PROGRESS}
    case ResolveSOS(_, _, _, _) => {SOS_ACTIVE}
    case _ => {IN_PROGRESS}
  }

  predicate Updates(req: Request) {
    NamesTrip(req) && !Attends(req)
  }

  function WriteOf(req: Request): TripWrite
    requires Updates(req)
  {
    match req
    case StartTrip(_, _, _, _) => WriteStart
    case EndTrip(_, _, _, _) => WriteEnd
    case ActivateSOS(_, _, _, _) => WriteSos
    case ResolveSOS(_, _, _, c) => WriteResolve(c)
  }

  function LogOf(req: Request, now: nat): PickupLog
    requires Attends(req)
  {
    PickupLog(req.school, req.trip, req.student,
              if req.MarkAbsent? then ABSENT else BoardingAction(req.drop), req.key, now)
  }

  lemma Elsewhere(w: World, th: Thread, now: nat, newId: Id)
    requires th.Running() && !OfTrips(th.req)
    ensures var w' := Call(w, th, now, newId).world;
            w'.trips == w.trips && w'.logs == w.logs && w'.alerts == w.alerts && w'.active == w.active
  {
    if OfVans(th.req) {
      VanFrame(w, VanProgram(th.req)[th.k], th.locals, th.req.school, newId);
    } else {
      PersonFrame(w, PersonProgram(th.req)[th.k], th.locals, th.req.school, newId);
    }
    hide ExecVan, ExecPerson;
  }

  // The first call of a trip handler finds the trip in one of the statuses it asks for.
  lemma FirstRead(w: World, th: Thread, now: nat, newId: Id)
    requires NamesTrip(th.req) && th.k == 0
    ensures var r := Call(w, th, now, newId);
            r.world == w &&
            (r.Next? ==> TripIn(w, th.req.trip, th.req.school) && w.trips[th.req.trip].status in Guard(th.req))
  {
  }

  // Which operations of a trip handler write, and what.
  lemma WhichCallsWrite(req: Request, k: nat)
    requires NamesTrip(req) && k < Length(req)
    ensures var op := TripProgram(req)[k];
            !op.InsertTrip? &&
            (op.WriteTrip? <==> Updates(req) && k == WriteAt(req)) &&
            (op.WriteTrip? ==> op == WriteTrip(req.trip, WriteOf(req))) &&
            (op.InsertLog? <==> Attends(req) && k == WriteAt(req)) &&
            (op.InsertLog? ==> op == InsertLog(req.trip, req.student, LogOf(req, 0).action, req.key)) &&
            (op.InsertAlert? <==> (req.ActivateSOS? && k == 3) || (req.ResolveSOS? && k == 2)) &&
            (op.InsertAlert? ==> op == InsertAlert(req.trip, if req.ActivateSOS? then SOS else SOS_RESOLVED))
  {
  }

  lemma TripsEffect(w: World, th: Thread, now: nat, newId: Id)
    requires th.Running() && NamesTrip(th.req)
    ensures var r := Call(w, th, now, newId);
            if Writes(th) && Updates(th.req) && th.req.trip in w.trips
            then r.Next? && r.world.trips == w.trips[th.req.trip := TripAfter(w.trips[th.req.trip], WriteOf(th.req), now)]
            else r.world.trips == w.trips
  {
    hide TripProgram;
    WhichCallsWrite(th.req, th.k);
    TripFrame(w, TripProgram(th.req)[th.k], th.locals, th.req.school, now, newId);
  }

  lemma CreationEffect(w: World, th: Thread, now: nat, newId: Id)
    requires th.Running() && th.req.CreateTrip?
    ensures var r := Call(w, th, now, newId);
            r.world.logs == w.logs && r.world.alerts == w.alerts &&
            if th.k == 2 && r.Next?
            then newId !in w.trips && r.locals.made == Some(newId) && r.world.active == w.active &&
                 r.world.trips == w.trips[newId :=
                   Trip(th.req.school, th.req.van, th.req.route, th.req.driver, NOT_STARTED, None, None, now, false)]
            else r.world.trips == w.trips && (th.k == 3 || r.world.active == w.active)
  {
    TripFrame(w, TripProgram(th.req)[th.k], th.locals, th.req.school, now, newId);
  }

  lemma LogsEffect(w: World, th: Thread, now: nat, newId: Id)
    requires th.Running() && NamesTrip(th.req)
    ensures var r := Call(w, th, now, newId);
            if Attends(th.req) && Writes(th) && r.Next?
            then LogAccepted(w.logs, LogOf(th.req, now)) && r.world.logs == w.logs + [LogOf(th.req, now)]
            else r.world.logs == w.logs
  {
    hide TripProgram;
    WhichCallsWrite(th.req, th.k);
    TripFrame(w, TripProgram(th.req)[th.k], th.locals, th.req.school, now, newId);
  }

  lemma AlertsEffect(w: World, th: Thread, now: nat, newId: Id)
    requires th.Running() && NamesTrip(th.req)
    ensures var r := Call(w, th, now, newId);
            if th.req.ActivateSOS? && th.k == 3
            then r.Next? && r.world.alerts == w.alerts + [Alert(th.req.school, th.req.trip, th.locals.van, SOS)]
            else if th.req.ResolveSOS? && th.k == 2
            then r.Next? && r.world.alerts == w.alerts + [Alert(th.req.school, th.req.trip, th.locals.van, SOS_RESOLVED)]
            else r.world.alerts == w.alerts
  {
    hide TripProgram;
    WhichCallsWrite(th.req, th.k);
    TripFrame(w, TripProgram(th.req)[th.k], th.locals, th.req.school, now, newId);
  }
}
