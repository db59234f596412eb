// What a single event does to a row, whatever else is in flight: which handler can have changed it, and into
// what. Then, over whole runs, where a recorded log, a start time and an end time come from.
module Steps {
  import opened Options
  import opened Schema
  import opened Handlers
  import opened Effects
  import opened Machine
  import opened Lifecycle

  // ---- attendance logs ----

  lemma CallOnLogs(w: World, th: Thread, now: nat, newId: Id)
    requires th.Running()
    ensures var logs', req := Call(w, th, now, newId).world.logs, th.req;
            logs' == w.logs ||
            (req.MarkBoarding? && th.k == 4 &&
             logs' == w.logs + [PickupLog(req.school, req.trip, req.student, if req.drop then DROPPED_OFF else PICKED_UP, req.key, now)]) ||
            (req.MarkAbsent? && th.k == 3 &&
             logs' == w.logs + [PickupLog(req.school, req.trip, req.student, ABSENT, req.key, now)])
  {
    if NamesTrip(th.req) {
      LogsEffect(w, th, now, newId);
    } else if th.req.CreateTrip? {
      CreationEffect(w, th, now, newId);
    } else {
      Elsewhere(w, th, now, newId);
    }
    hide Call;
  }

  // The log records what the request asks for.
  predicate Records(log: PickupLog, req: Request) {
    (req.MarkBoarding? || req.MarkAbsent?) && log.school == req.school && log.trip == req.trip &&
    log.student == req.student && log.key == req.key &&
    match log.action
    case PICKED_UP => req.MarkBoarding? && !req.drop
    case DROPPED_OFF => req.MarkBoarding? && req.drop
    case ABSENT => req.MarkAbsent?
    case PENDING => false
  }

  predicate Arrived(evs: seq<Event>, id: Id, req: Request) {
    exists i | 0 <= i < |evs| :: evs[i] == Arrive(id, req)
  }

  ghost predicate Asked(evs: seq<Event>, log: PickupLog) {
    exists id, req :: Arrived(evs, id, req) && Records(log, req)
  }

  ghost predicate FlightArrived(evs: seq<Event>, s: Sys) {
    forall id <- s.flight :: Arrived(evs, id, s.flight[id].req)
  }

  ghost predicate LogsAsked(evs: seq<Event>, s: Sys, from: nat, clock: nat) {
    from <= |s.world.logs| && clock <= s.clock &&
    forall i | from <= i < |s.world.logs| :: Asked(evs, s.world.logs[i]) && clock <= s.world.logs[i].takenAt <= s.clock
  }

  lemma ArrivedStays(evs: seq<Event>, ev: Event, id: Id, req: Request)
    requires Arrived(evs, id, req)
    ensures Arrived(evs + [ev], id, req)
  {
    var i :| 0 <= i < |evs| && evs[i] == Arrive(id, req);
    assert (evs + [ev])[i] == Arrive(id, req);
  }

  lemma AskedStays(evs: seq<Event>, ev: Event, log: PickupLog)
    requires Asked(evs, log)
    ensures Asked(evs + [ev], log)
  {
    hide Arrived, Records;
    var id, req :| Arrived(evs, id, req) && Records(log, req);
    ArrivedStays(evs, ev, id, req);
  }

  lemma TickArrived(evs: seq<Event>, s: Sys, ev: Event)
    requires FlightArrived(evs, s)
    ensures FlightArrived(evs + [ev], Tick(s, ev))
  {
    hide Call, Length, Arrived;
    var s' := Tick(s, ev);
    forall id <- s'.flight ensures Arrived(evs + [ev], id, s'.flight[id].req) {
      if id in s.flight {
        ArrivedStays(evs, ev, id, s.flight[id].req);
      } else {
        assert ev == Arrive(id, s'.flight[id].req);
        LastArrived(evs, ev);
      }
    }
  }

  lemma LastArrived(evs: seq<Event>, ev: Event)
    requires ev.Arrive?
    ensures Arrived(evs + [ev], ev.id, ev.req)
  {
    assert (evs + [ev])[|evs|] == ev;
  }

  lemma TickAsked(evs: seq<Event>, s: Sys, ev: Event, from: nat, clock: nat)
    requires FlightArrived(evs, s) && LogsAsked(evs, s, from, clock)
    ensures LogsAsked(evs + [ev], Tick(s, ev), from, clock)
  {
    hide Call, Length, Arrived, Asked;
    var s' := Tick(s, ev);
    forall i | from <= i < |s.world.logs| ensures Asked(evs + [ev], s.world.logs[i]) {
      AskedStays(evs, ev, s.world.logs[i]);
    }
    if Calls(s, ev) {
      var th, now, n := s.flight[ev.id], s.clock + ev.elapsed, |s.world.logs|;
      CallOnLogs(s.world, th, now, ev.newId);
      if s'.world.logs != s.world.logs {
        ArrivedStays(evs, ev, ev.id, th.req);
        RecordedIsAsked(evs + [ev], s'.world.logs[n], ev.id, th.req);
      }
    } else {
      IdleChangesLittle(s, ev);
    }
  }

  lemma RecordedIsAsked(evs: seq<Event>, log: PickupLog, id: Id, req: Request)
    requires Arrived(evs, id, req) && Records(log, req)
    ensures Asked(evs, log)
  {
  }

  // In every interleaving, each log that is added records what some request that arrived asked for: a pickup
  // as PICKED_UP, a drop as DROPPED_OFF, an absence as ABSENT, with the request's own school, trip, student
  // and key, at a time of the run.
  lemma {:induction false} LogsRecordTheirRequests(w: World, clock: nat, evs: seq<Event>)
    ensures FlightArrived(evs, Run(Quiet(w, clock), evs))
    ensures LogsAsked(evs, Run(Quiet(w, clock), evs), |w.logs|, clock)
  {
    if evs != [] {
      hide Tick, FlightArrived, LogsAsked;
      var n, s := |evs| - 1, Quiet(w, clock);
      assert evs == evs[..n] + [evs[n]];
      LogsRecordTheirRequests(w, clock, evs[..n]);
      TickArrived(evs[..n], Run(s, evs[..n]), evs[n]);
      TickAsked(evs[..n], Run(s, evs[..n]), evs[n], |w.logs|, clock);
    }
  }

  // ---- trips ----

  lemma CallOnTrips(w: World, th: Thread, now: nat, newId: Id, t: Id)
    requires th.Running() && t in w.trips
    ensures var was, w' := w.trips[t], Call(w, th, now, newId).world;
            t in w'.trips &&
            w'.trips[t] == if !NamesTrip(th.req) || th.req.trip != t || th.k != 1 then was else match th.req
              case StartTrip(_, _, _, _) =>
                Trip(was.school, was.van, was.route, was.driver, IN_PROGRESS, Some(now), was.actualEnd, was.createdAt, was.deleted)
              case EndTrip(_, _, _, _) =>
                Trip(was.school, was.van, was.route, was.driver, COMPLETED, was.actualStart, Some(now), was.createdAt, was.deleted)
              case ActivateSOS(_, _, _, _) =>
                Trip(was.school, was.van, was.route, was.driver, SOS_ACTIVE, was.actualStart, was.actualEnd, was.createdAt, was.deleted)
              case ResolveSOS(_, _, _, goesOn) =>
                Trip(was.school, was.van, was.route, was.driver, if goesOn then IN_PROGRESS else COMPLETED, was.actualStart,
                     if goesOn then was.actualEnd else Some(now), was.createdAt, was.deleted)
              case _ => was
  {
    if NamesTrip(th.req) {
      TripsEffect(w, th, now, newId);
    } else if th.req.CreateTrip? {
      CreationEffect(w, th, now, newId);
    } else {
      Elsewhere(w, th, now, newId);
    }
    hide Call;
  }

  // At most the status and the two times change. A trip that becomes COMPLETED gets the time of that step as
  // its end and keeps its start; a start time is set to the time of the step that puts the trip IN_PROGRESS.
  predicate Stamped(was: Trip, row: Trip, now: nat) {
    && row == was.(status := row.status, actualStart := row.actualStart, actualEnd := row.actualEnd)
    && (row.status == COMPLETED && was.status != COMPLETED ==>
          row.actualEnd == Some(now) && row.actualStart == was.actualStart)
    && (row.actualEnd != was.actualEnd ==> row.status == COMPLETED && row.actualEnd == Some(now))
    && (row.actualStart != was.actualStart ==>
          row.status == IN_PROGRESS && row.actualStart == Some(now) && row.actualEnd == was.actualEnd)
  }

  lemma StepsStampTrips(s: Sys, ev: Event, t: Id)
    requires t in s.world.trips
    ensures var s' := Tick(s, ev);
            t in s'.world.trips && Stamped(s.world.trips[t], s'.world.trips[t], s'.clock)
  {
    hide Call, Length;
    if Calls(s, ev) {
      CallOnTrips(s.world, s.flight[ev.id], s.clock + ev.elapsed, ev.newId, t);
    } else {
      IdleChangesLittle(s, ev);
    }
  }

  // A trip that a step adds has just been created.
  lemma NewTripsAreNew(s: Sys, ev: Event, t: Id)
    requires t !in s.world.trips && t in Tick(s, ev).world.trips
    ensures var row := Tick(s, ev).world.trips[t];
            row.status == NOT_STARTED && row.actualStart.None? && row.actualEnd.None? && row.createdAt == Tick(s, ev).clock
  {
    hide Call, Length;
    if Calls(s, ev) {
      var th, now := s.flight[ev.id], s.clock + ev.elapsed;
      if NamesTrip(th.req) {
        TripsEffect(s.world, th, now, ev.newId);
      } else if th.req.CreateTrip? {
        CreationEffect(s.world, th, now, ev.newId);
      } else {
        Elsewhere(s.world, th, now, ev.newId);
      }
    } else {
      IdleChangesLittle(s, ev);
    }
  }

  predicate Completed(s: Sys, t: Id) {
    t in s.world.trips && s.world.trips[t].status == COMPLETED
  }

  predicate Started(s: Sys, t: Id) {
    t in s.world.trips && s.world.trips[t].actualStart.Some?
  }

  // Over every clean run the end time of a trip that was completed in it is the time of the step that
  // completed it.
  lemma {:induction false} EndTimeIsTheCompletion(w: World, clock: nat, evs: seq<Event>, t: Id) returns (i: nat)
    requires LawfulStart(w) && CleanRun(Quiet(w, clock), evs)
    requires !Completed(Quiet(w, clock), t) && Completed(Run(Quiet(w, clock), evs), t)
    ensures i < |evs| && !Completed(Run(Quiet(w, clock), evs[..i]), t) && Completed(Run(Quiet(w, clock), evs[..i + 1]), t)
    ensures Run(Quiet(w, clock), evs).world.trips[t].actualEnd == Some(Run(Quiet(w, clock), evs[..i + 1]).clock)
  {
    hide Tick, CleanRun, Lawful, LegalMove;
    var n, s := |evs| - 1, Quiet(w, clock);
    var before := Run(s, evs[..n]);
    LastStepIsClean(s, evs);
    CleanRunsAreLawful(w, clock, evs[..n]);
    if Completed(before, t) {
      i := EndTimeIsTheCompletion(w, clock, evs[..n], t);
      TickIsLegal(before, evs[n], t);
      assert evs[..n][..i] == evs[..i] && evs[..n][..i + 1] == evs[..i + 1];
    } else {
      i := n;
      assert evs[..i + 1] == evs;
      if t in before.world.trips {
        StepsStampTrips(before, evs[n], t);
      } else {
        NewTripsAreNew(before, evs[n], t);
      }
    }
  }

  // And the start time of a trip started in it is that of the step that put it IN_PROGRESS.
  lemma {:induction false} StartTimeIsTheStart(w: World, clock: nat, evs: seq<Event>, t: Id) returns (i: nat)
    requires LawfulStart(w) && CleanRun(Quiet(w, clock), evs)
    requires !Started(Quiet(w, clock), t) && Started(Run(Quiet(w, clock), evs), t)
    ensures i < |evs| && !Started(Run(Quiet(w, clock), evs[..i]), t) && Started(Run(Quiet(w, clock), evs[..i + 1]), t)
    ensures var at, last := Run(Quiet(w, clock), evs[..i + 1]), Run(Quiet(w, clock), evs);
            at.world.trips[t].status == IN_PROGRESS && last.world.trips[t].actualStart == Some(at.clock)
  {
    hide Tick, CleanRun, Lawful, LegalMove;
    var n, s := |evs| - 1, Quiet(w, clock);
    var before := Run(s, evs[..n]);
    LastStepIsClean(s, evs);
    CleanRunsAreLawful(w, clock, evs[..n]);
    if Started(before, t) {
      i := StartTimeIsTheStart(w, clock, evs[..n], t);
      TickIsLegal(before, evs[n], t);
      assert evs[..n][..i] == evs[..i] && evs[..n][..i + 1] == evs[..i + 1];
    } else {
      i := n;
      assert evs[..i + 1] == evs;
      if t in before.world.trips {
        StepsStampTrips(before, evs[n], t);
      } else {
        NewTripsAreNew(before, evs[n], t);
      }
    }
  }
}
