// What each trip handler leaves behind and answers when it is served alone, for every store and request:
// the rows field by field, by the rules the services state, with none of the definitions of its calls.
module TripOutcomes {
  import opened Options
  import opened Schema
  import opened Handlers
  import opened Database

  lemma CreateTripOutcome(w: World, school: Id, driver: Id, van: Id, route: Option<Id>, now: nat, newId: Id)
    ensures var (w', r) := Serve(w, CreateTrip(school, driver, van, route), now, newId);
            var row := Trip(school, van, route, driver, NOT_STARTED, None, None, now, false);
            if !(van in w.vans && w.vans[van].school == school && w.vans[van].driver == Some(driver) &&
                 w.vans[van].active && !w.vans[van].deleted) then w' == w && r == NotFound
            else if route.Some? && !(route.value in w.routes && w.routes[route.value].school == school &&
                                     w.routes[route.value].active && !w.routes[route.value].deleted)
            then w' == w && r == NotFound
            else if newId in w.trips then w' == w && r == DatabaseError
            else w' == w.(trips := w.trips[newId := row],
                          active := w.active[newId := ActiveKey(van, school, now + 24 * 3600 * 1000)]) && r == TripRow(row)
  {
    hide Drive;
    var th := Opened(CreateTrip(school, driver, van, route));
    var r := Call(w, th, now, newId);
    if r.Stop? {
      Halts(w, th, now, newId, w, NotFound);
    } else {
      th := Went(w, th, w, FRESH_LOCALS.(van := van), now, newId);
      r := Call(w, th, now, newId);
      if r.Stop? {
        Halts(w, th, now, newId, w, NotFound);
      } else {
        th := Went(w, th, w, FRESH_LOCALS.(van := van), now, newId);
        CreateTripInserts(w, th, now, newId);
      }
    }
  }

  lemma CreateTripInserts(w: World, th: Thread, now: nat, newId: Id)
    requires th.req.CreateTrip? && th.k == 2 && th.locals == FRESH_LOCALS.(van := th.req.van)
    ensures var (w', r) := Drive(w, th, now, newId);
            var req := th.req;
            var row := Trip(req.school, req.van, req.route, req.driver, NOT_STARTED, None, None, now, false);
            if newId in w.trips then w' == w && r == DatabaseError
            else w' == w.(trips := w.trips[newId := row],
                          active := w.active[newId := ActiveKey(req.van, req.school, now + 24 * 3600 * 1000)]) && r == TripRow(row)
  {
    var req := th.req;
    if newId in w.trips {
      Halts(w, th, now, newId, w, DatabaseError);
    } else {
      var row := Trip(req.school, req.van, req.route, req.driver, NOT_STARTED, None, None, now, false);
      var w1 := w.(trips := w.trips[newId := row]);
      var th1 := Went(w, th, w1, th.locals.(made := Some(newId), answer := TripRow(row)), now, newId);
      var w2 := w1.(active := w1.active[newId := ActiveKey(req.van, req.school, now + 24 * 3600 * 1000)]);
      var th2 := Went(w1, th1, w2, th1.locals, now, newId);
      Over(w2, th2, now, newId);
      hide Drive, Call;
    }
  }

  lemma StartTripOutcome(w: World, school: Id, driver: Id, trip: Id, loc: Location, now: nat, newId: Id)
    ensures var (w', r) := Serve(w, StartTrip(school, driver, trip, loc), now, newId);
            if trip in w.trips && w.trips[trip].school == school && w.trips[trip].driver == driver &&
               w.trips[trip].status == NOT_STARTED && !w.trips[trip].deleted
            then var t, fix := w.trips[trip], Fix(school, loc, now + 300 * 1000);
                 var row := Trip(school, t.van, t.route, driver, IN_PROGRESS, Some(now), t.actualEnd, t.createdAt, false);
                 w' == w.(trips := w.trips[trip := row], fixes := w.fixes[t.van := fix][trip := fix]) && r == TripRow(row)
            else w' == w && r == NotFound
  {
    hide Drive;
    var th := Opened(StartTrip(school, driver, trip, loc));
    if Call(w, th, now, newId).Stop? {
      Halts(w, th, now, newId, w, NotFound);
    } else {
      var t := w.trips[trip];
      var l := FRESH_LOCALS.(van := t.van);
      th := Went(w, th, w, l, now, newId);
      var row := t.(status := IN_PROGRESS, actualStart := Some(now));
      var w1 := w.(trips := w.trips[trip := row]);
      th := Went(w, th, w1, l.(answer := TripRow(row)), now, newId);
      PositionsFollow(w1, th, now, newId);
    }
  }

  // The calls after the main write of the three handlers that report a position.
  lemma PositionsFollow(w: World, th: Thread, now: nat, newId: Id)
    requires (th.req.StartTrip? && th.k == 2) || (th.req.EndTrip? && th.k == 2) || (th.req.MarkBoarding? && th.k == 5)
    ensures var fix, trip := Fix(th.req.school, th.req.loc, now + 300 * 1000), th.req.trip;
            Drive(w, th, now, newId)
            == (w.(fixes := w.fixes[th.locals.van := fix][trip := fix],
                   active := if th.req.EndTrip? then w.active - {trip} else w.active), th.locals.answer)
  {
    hide Drive;
    var fix := Fix(th.req.school, th.req.loc, now + 300 * 1000);
    var w1 := w.(fixes := w.fixes[th.locals.van := fix]);
    var th1 := Went(w, th, w1, th.locals, now, newId);
    var w2 := w1.(fixes := w1.fixes[th.req.trip := fix]);
    var th2 := Went(w1, th1, w2, th.locals, now, newId);
    if th.req.EndTrip? {
      var w3 := w2.(active := w2.active - {th.req.trip});
      var th3 := Went(w2, th2, w3, th.locals, now, newId);
      Over(w3, th3, now, newId);
    } else {
      Over(w2, th2, now, newId);
    }
  }

  lemma EndTripOutcome(w: World, school: Id, driver: Id, trip: Id, loc: Location, now: nat, newId: Id)
    ensures var (w', r) := Serve(w, EndTrip(school, driver, trip, loc), now, newId);
            if trip in w.trips && w.trips[trip].school == school && w.trips[trip].driver == driver &&
               w.trips[trip].status == IN_PROGRESS && !w.trips[trip].deleted
            then var t, fix := w.trips[trip], Fix(school, loc, now + 300 * 1000);
                 var row := Trip(school, t.van, t.route, driver, COMPLETED, t.actualStart, Some(now), t.createdAt, false);
                 w' == w.(trips := w.trips[trip := row], fixes := w.fixes[t.van := fix][trip := fix],
                          active := w.active - {trip}) && r == TripRow(row)
            else w' == w && r == NotFound
  {
    hide Drive;
    var th := Opened(EndTrip(school, driver, trip, loc));
    if Call(w, th, now, newId).Stop? {
      Halts(w, th, now, newId, w, NotFound);
    } else {
      var t := w.trips[trip];
      var l := FRESH_LOCALS.(van := t.van);
      th := Went(w, th, w, l, now, newId);
      var row := t.(status := COMPLETED, actualEnd := Some(now));
      var w1 := w.(trips := w.trips[trip := row]);
      th := Went(w, th, w1, l.(answer := TripRow(row)), now, newId);
      PositionsFollow(w1, th, now, newId);
    }
  }

  // What the three attendance handlers ask of the trip, and then of the student.
  lemma AttendanceReads(w: World, req: Request, now: nat, newId: Id)
    requires req.MarkBoarding? || req.MarkAbsent?
    ensures var (w', r) := Serve(w, req, now, newId);
            var trip, student := req.trip, req.student;
            if !(trip in w.trips && w.trips[trip].school == req.school && w.trips[trip].driver == req.driver &&
                 w.trips[trip].status == IN_PROGRESS && !w.trips[trip].deleted) then w' == w && r == NotFound
            else if !(student in w.students && w.students[student].school == req.school &&
                      w.students[student].van == Some(w.trips[trip].van) && w.students[student].active &&
                      !w.students[student].deleted) then w' == w && r == BadRequest
            else (w', r) == Drive(w, Thread(req, 2, FRESH_LOCALS.(van := w.trips[trip].van)), now, newId)
  {
    hide Drive;
    var th := Opened(req);
    if Call(w, th, now, newId).Stop? {
      Halts(w, th, now, newId, w, NotFound);
    } else {
      th := Went(w, th, w, FRESH_LOCALS.(van := w.trips[req.trip].van), now, newId);
      if Call(w, th, now, newId).Stop? {
        Halts(w, th, now, newId, w, BadRequest);
      } else {
        th := Went(w, th, w, th.locals, now, newId);
      }
    }
  }

  // A pickup is recorded as PICKED_UP and a drop as DROPPED_OFF, once for the student and trip.
  lemma MarkBoardingOutcome(w: World, req: Request, now: nat, newId: Id)
    requires req.MarkBoarding?
    ensures var (w', r) := Serve(w, req, now, newId);
            var trip, student := req.trip, req.student;
            var row := PickupLog(req.school, trip, student, if req.drop then DROPPED_OFF else PICKED_UP, req.key, now);
            if !(trip in w.trips && w.trips[trip].school == req.school && w.trips[trip].driver == req.driver &&
                 w.trips[trip].status == IN_PROGRESS && !w.trips[trip].deleted) then w' == w && r == NotFound
            else if !(student in w.students && w.students[student].school == req.school &&
                      w.students[student].van == Some(w.trips[trip].van) && w.students[student].active &&
                      !w.students[student].deleted) then w' == w && r == BadRequest
            else if exists log <- w.logs :: log.trip == trip && log.student == student && log.action in {PICKED_UP, DROPPED_OFF}
            then w' == w && r == Conflict
            else if req.key.Some? && exists log <- w.logs :: log.key == req.key
            then w' == w && r.LogRow? && r.log in w.logs && r.log.key == req.key
            else if exists log <- w.logs :: log.school == req.school && log.trip == trip && log.student == student && log.takenAt == now
            then w' == w && r == DatabaseError
            else var fix := Fix(req.school, req.loc, now + 300 * 1000);
                 w' == w.(logs := w.logs + [row], fixes := w.fixes[w.trips[trip].van := fix][trip := fix]) && r == LogRow(row)
  {
    hide Drive;
    AttendanceReads(w, req, now, newId);
    LogUnfolds(w.logs, req, now);
    if req.trip in w.trips {
      BoardingRecorded(w, Thread(req, 2, FRESH_LOCALS.(van := w.trips[req.trip].van)), now, newId);
    }
    hide Boarded, KeyUsed, LogAccepted, FindKey;
  }

  function RowOf(req: Request, now: nat): PickupLog
    requires req.MarkBoarding? || req.MarkAbsent?
  {
    PickupLog(req.school, req.trip, req.student,
              if req.MarkAbsent? then ABSENT else if req.drop then DROPPED_OFF else PICKED_UP, req.key, now)
  }

  // The log as the tests on it see it.
  lemma LogUnfolds(logs: seq<PickupLog>, req: Request, now: nat)
    requires req.MarkBoarding? || req.MarkAbsent?
    ensures Boarded(logs, req.trip, req.student) <==>
            exists log <- logs :: log.trip == req.trip && log.student == req.student && log.action in {PICKED_UP, DROPPED_OFF}
    ensures req.key.Some? ==> (KeyUsed(logs, req.key.value) <==> exists log <- logs :: log.key == req.key)
    ensures LogAccepted(logs, RowOf(req, now)) <==>
            (req.key.Some? ==> !KeyUsed(logs, req.key.value)) &&
            !exists log <- logs :: log.school == req.school && log.trip == req.trip && log.student == req.student && log.takenAt == now
  {
    hide FindKey;
  }

  lemma BoardingRecorded(w: World, th: Thread, now: nat, newId: Id)
    requires th.req.MarkBoarding? && th.k == 2
    ensures var (w', r) := Drive(w, th, now, newId);
            var req, row := th.req, RowOf(th.req, now);
            if Boarded(w.logs, req.trip, req.student) then w' == w && r == Conflict
            else if req.key.Some? && KeyUsed(w.logs, req.key.value) then w' == w && r == LogRow(FindKey(w.logs, req.key.value))
            else if !LogAccepted(w.logs, row) then w' == w && r == DatabaseError
            else var fix := Fix(req.school, req.loc, now + 300 * 1000);
                 w' == w.(logs := w.logs + [row], fixes := w.fixes[th.locals.van := fix][req.trip := fix]) && r == LogRow(row)
  {
    hide Drive, Boarded, KeyUsed, LogAccepted, FindKey;
    var req, row := th.req, RowOf(th.req, now);
    if Boarded(w.logs, req.trip, req.student) {
      Halts(w, th, now, newId, w, Conflict);
    } else {
      var th1 := Went(w, th, w, th.locals, now, newId);
      if req.key.Some? && KeyUsed(w.logs, req.key.value) {
        Halts(w, th1, now, newId, w, LogRow(FindKey(w.logs, req.key.value)));
      } else {
        var th2 := Went(w, th1, w, th.locals, now, newId);
        if LogAccepted(w.logs, row) {
          var w1 := w.(logs := w.logs + [row]);
          var th3 := Went(w, th2, w1, th.locals.(answer := LogRow(row)), now, newId);
          PositionsFollow(w1, th3, now, newId);
        } else {
          Halts(w, th2, now, newId, w, DatabaseError);
        }
      }
    }
  }

  // An absence has no test of the key: a used one is the database's error.
  lemma MarkAbsentOutcome(w: World, req: Request, now: nat, newId: Id)
    requires req.MarkAbsent?
    ensures var (w', r) := Serve(w, req, now, newId);
            var trip, student := req.trip, req.student;
            var row := PickupLog(req.school, trip, student, ABSENT, req.key, now);
            if !(trip in w.trips && w.trips[trip].school == req.school && w.trips[trip].driver == req.driver &&
                 w.trips[trip].status == IN_PROGRESS && !w.trips[trip].deleted) then w' == w && r == NotFound
            else if !(student in w.students && w.students[student].school == req.school &&
                      w.students[student].van == Some(w.trips[trip].van) && w.students[student].active &&
                      !w.students[student].deleted) then w' == w && r == BadRequest
            else if exists log <- w.logs :: log.trip == trip && log.student == student && log.action in {PICKED_UP, DROPPED_OFF}
            then w' == w && r == Conflict
            else if (req.key.Some? && exists log <- w.logs :: log.key == req.key) ||
                    exists log <- w.logs :: log.school == req.school && log.trip == trip && log.student == student && log.takenAt == now
            then w' == w && r == DatabaseError
            else w' == w.(logs := w.logs + [row]) && r == LogRow(row)
  {
    hide Drive;
    AttendanceReads(w, req, now, newId);
    LogUnfolds(w.logs, req, now);
    if req.trip in w.trips {
      AbsenceRecorded(w, Thread(req, 2, FRESH_LOCALS.(van := w.trips[req.trip].van)), now, newId);
    }
    hide Boarded, KeyUsed, LogAccepted, FindKey;
  }

  lemma AbsenceRecorded(w: World, th: Thread, now: nat, newId: Id)
    requires th.req.MarkAbsent? && th.k == 2
    ensures var (w', r) := Drive(w, th, now, newId);
            var req, row := th.req, RowOf(th.req, now);
            if Boarded(w.logs, req.trip, req.student) then w' == w && r == Conflict
            else if !LogAccepted(w.logs, row) then w' == w && r == DatabaseError
            else w' == w.(logs := w.logs + [row]) && r == LogRow(row)
  {
    hide Drive, Boarded, KeyUsed, LogAccepted, FindKey;
    var req, row := th.req, RowOf(th.req, now);
    if Boarded(w.logs, req.trip, req.student) {
      Halts(w, th, now, newId, w, Conflict);
    } else {
      var th1 := Went(w, th, w, th.locals, now, newId);
      if LogAccepted(w.logs, row) {
        var w1 := w.(logs := w.logs + [row]);
        var th2 := Went(w, th1, w1, th.locals.(answer := LogRow(row)), now, newId);
        Over(w1, th2, now, newId);
      } else {
        Halts(w, th1, now, newId, w, DatabaseError);
      }
    }
  }

  lemma ActivateSosOutcome(w: World, school: Id, driver: Id, trip: Id, at: Option<Location>, now: nat, newId: Id)
    ensures var (w', r) := Serve(w, ActivateSOS(school, driver, trip, at), now, newId);
            if trip in w.trips && w.trips[trip].school == school && w.trips[trip].driver == driver &&
               w.trips[trip].status in {NOT_STARTED, IN_PROGRESS} && !w.trips[trip].deleted
            then var t := w.trips[trip];
                 var row := Trip(school, t.van, t.route, driver, SOS_ACTIVE, t.actualStart, t.actualEnd, t.createdAt, false);
                 w' == w.(trips := w.trips[trip := row], alerts := w.alerts + [Alert(school, trip, t.van, SOS)],
                          fixes := if at.Some? then w.fixes[t.van := Fix(school, at.value, now + 300 * 1000)] else w.fixes) &&
                 r == TripRow(row)
            else w' == w && r == NotFound
  {
    hide Drive;
    var th := Opened(ActivateSOS(school, driver, trip, at));
    if Call(w, th, now, newId).Stop? {
      Halts(w, th, now, newId, w, NotFound);
    } else {
      var t := w.trips[trip];
      var l := FRESH_LOCALS.(van := t.van);
      th := Went(w, th, w, l, now, newId);
      var row := t.(status := SOS_ACTIVE);
      var w1 := w.(trips := w.trips[trip := row]);
      l := l.(answer := TripRow(row));
      th := Went(w, th, w1, l, now, newId);
      var w2 := w1.(fixes := if at.Some? then w.fixes[t.van := Fix(school, at.value, now + 300 * 1000)] else w.fixes);
      th := Went(w1, th, w2, l, now, newId);
      var w3 := w2.(alerts := w.alerts + [Alert(school, trip, t.van, SOS)]);
      th := Went(w2, th, w3, l, now, newId);
      Over(w3, th, now, newId);
    }
  }

  lemma ResolveSosOutcome(w: World, school: Id, driver: Id, trip: Id, goesOn: bool, now: nat, newId: Id)
    ensures var (w', r) := Serve(w, ResolveSOS(school, driver, trip, goesOn), now, newId);
            if trip in w.trips && w.trips[trip].school == school && w.trips[trip].driver == driver &&
               w.trips[trip].status == SOS_ACTIVE && !w.trips[trip].deleted
            then var t := w.trips[trip];
                 var row := Trip(school, t.van, t.route, driver, if goesOn then IN_PROGRESS else COMPLETED, t.actualStart,
                                 if goesOn then t.actualEnd else Some(now), t.createdAt, false);
                 w' == w.(trips := w.trips[trip := row], alerts := w.alerts + [Alert(school, trip, t.van, SOS_RESOLVED)]) &&
                 r == TripRow(row)
            else w' == w && r == NotFound
  {
    hide Drive;
    var th := Opened(ResolveSOS(school, driver, trip, goesOn));
    if Call(w, th, now, newId).Stop? {
      Halts(w, th, now, newId, w, NotFound);
    } else {
      var t := w.trips[trip];
      var l := FRESH_LOCALS.(van := t.van);
      th := Went(w, th, w, l, now, newId);
      var row := TripAfter(t, WriteResolve(goesOn), now);
      var w1 := w.(trips := w.trips[trip := row]);
      l := l.(answer := TripRow(row));
      th := Went(w, th, w1, l, now, newId);
      var w2 := w1.(alerts := w.alerts + [Alert(school, trip, t.van, SOS_RESOLVED)]);
      th := Went(w1, th, w2, l, now, newId);
      Over(w2, th, now, newId);
    }
  }
}
