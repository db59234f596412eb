// Attendance logs under every interleaving: how many duplicates overlapping requests can leave, what
// the unique key still guarantees, and what a retried request is told.
module Attendance {
  import opened Options
  import opened Sets
  import opened Schema
  import opened Handlers
  import opened TripOutcomes
  import opened Effects
  import opened Machine
  import opened Lifecycle

  function Boardings(logs: seq<PickupLog>, trip: Id, student: Id): nat {
    if logs == [] then 0 else
      var last := logs[|logs| - 1];
      Boardings(logs[..|logs| - 1], trip, student) +
      One(last.trip == trip && last.student == student && last.action.Boards())
  }

  lemma {:induction false} BoardedMeansCounted(logs: seq<PickupLog>, trip: Id, student: Id)
    ensures Boarded(logs, trip, student) <==> Boardings(logs, trip, student) > 0
  {
    if logs != [] {
      var init, last := logs[..|logs| - 1], logs[|logs| - 1];
      BoardedMeansCounted(init, trip, student);
      assert Boarded(init, trip, student) ==> Boarded(logs, trip, student) by {
        assert forall i | 0 <= i < |init| :: logs[i] == init[i];
      }
      assert Boarded(logs, trip, student) ==>
        Boarded(init, trip, student) || (last.trip == trip && last.student == student && last.action.Boards());
    }
  }

  // A pickup or drop request for the student on the trip.
  predicate Boarding(th: Thread, trip: Id, student: Id) {
    th.req.MarkBoarding? && th.req.trip == trip && th.req.student == student
  }

  // It has found no earlier boarding and has not tried to insert its own yet.
  predicate AboutToBoard(th: Thread, trip: Id, student: Id) {
    Boarding(th, trip, student) && 3 <= th.k <= 4
  }

  ghost function Requesting(s: Sys, trip: Id, student: Id): set<Id> {
    Owing(s.flight, th => Boarding(th, trip, student))
  }

  ghost function Inserting(s: Sys, trip: Id, student: Id): set<Id> {
    Owing(s.flight, th => AboutToBoard(th, trip, student))
  }

  // Either nothing is recorded yet, or what is recorded and what is coming stays within the bound.
  ghost predicate Within(s: Sys, trip: Id, student: Id, bound: nat) {
    var n := Boardings(s.world.logs, trip, student);
    n > 0 ==> n + |Inserting(s, trip, student)| <= bound
  }

  lemma InsertingAreRequesting(s: Sys, trip: Id, student: Id)
    ensures |Inserting(s, trip, student)| <= |Requesting(s, trip, student)|
  {
    SubsetSize(Inserting(s, trip, student), Requesting(s, trip, student));
  }

  lemma DuplicateCheck(w: World, th: Thread, now: nat, newId: Id)
    requires th.Running() && th.req.MarkBoarding? && th.k == 2
    ensures Call(w, th, now, newId).Next? ==> !Boarded(w.logs, th.req.trip, th.req.student)
  {
  }

  lemma BoardingCallBoards(w: World, th: Thread, now: nat, newId: Id, trip: Id, student: Id)
    requires th.Running() && NamesTrip(th.req)
    ensures var r := Call(w, th, now, newId);
            var n, n' := Boardings(w.logs, trip, student), Boardings(r.world.logs, trip, student);
            (r.Next? && AboutToBoard(Later(th, r), trip, student) && !AboutToBoard(th, trip, student) ==> n == 0 && n' == 0) &&
            (n' == n || (n' == n + 1 && AboutToBoard(th, trip, student) && !(r.Next? && AboutToBoard(Later(th, r), trip, student))))
  {
    hide Call, Length, Boarded, LogAccepted;
    LogsEffect(w, th, now, newId);
    BoardedMeansCounted(w.logs, trip, student);
    if Boarding(th, trip, student) && th.k == 2 {
      DuplicateCheck(w, th, now, newId);
    }
    var logs' := Call(w, th, now, newId).world.logs;
    assert logs' == w.logs || logs'[..|logs'| - 1] == w.logs;
  }

  // Past the duplicate check only with nothing recorded; one log per handler.
  lemma CallBoards(w: World, th: Thread, now: nat, newId: Id, trip: Id, student: Id)
    requires th.Running()
    ensures var r := Call(w, th, now, newId);
            var n, n' := Boardings(w.logs, trip, student), Boardings(r.world.logs, trip, student);
            (r.Next? && AboutToBoard(Later(th, r), trip, student) && !AboutToBoard(th, trip, student) ==> n == 0 && n' == 0) &&
            (n' == n || (n' == n + 1 && AboutToBoard(th, trip, student) && !(r.Next? && AboutToBoard(Later(th, r), trip, student))))
  {
    hide Call, Length;
    if NamesTrip(th.req) {
      BoardingCallBoards(w, th, now, newId, trip, student);
    } else if th.req.CreateTrip? {
      CreationEffect(w, th, now, newId);
    } else {
      Elsewhere(w, th, now, newId);
    }
  }

  lemma TickStaysWithin(s: Sys, ev: Event, trip: Id, student: Id, bound: nat)
    requires Within(s, trip, student, bound) && |Requesting(s, trip, student)| <= bound
    ensures Within(Tick(s, ev), trip, student, bound)
  {
    hide Call, Owing;
    if Calls(s, ev) {
      var th, now := s.flight[ev.id], s.clock + ev.elapsed;
      var r := Call(s.world, th, now, ev.newId);
      CallBoards(s.world, th, now, ev.newId, trip, student);
      OwingAfter(s, ev.id, r, now, t => AboutToBoard(t, trip, student));
      InsertingAreRequesting(s, trip, student);
    } else if ev.Arrive? {
      ArrivalOwesNothing(s, ev, trip, student);
    }
  }

  lemma ArrivalOwesNothing(s: Sys, ev: Event, trip: Id, student: Id)
    requires ev.Arrive?
    ensures Inserting(Tick(s, ev), trip, student) == Inserting(s, trip, student)
  {
  }

  // With at most k pickup or drop requests of one student on one trip in flight at any moment, every
  // interleaving leaves at most k boarding logs: k = 1 is the promise of one, and nothing but overlap
  // breaks it.
  lemma {:induction false} OverlapBoundsDuplicates(w: World, clock: nat, evs: seq<Event>, trip: Id, student: Id, k: nat)
    requires forall i | 0 <= i <= |evs| :: |Requesting(Run(Quiet(w, clock), evs[..i]), trip, student)| <= k
    requires Boardings(w.logs, trip, student) <= k
    ensures Within(Run(Quiet(w, clock), evs), trip, student, k)
    ensures Boardings(Run(Quiet(w, clock), evs).world.logs, trip, student) <= k
  {
    var s := Quiet(w, clock);
    if evs == [] {
      assert Inserting(s, trip, student) == {};
    } else {
      var before := evs[..|evs| - 1];
      forall i | 0 <= i <= |before|
        ensures |Requesting(Run(s, before[..i]), trip, student)| <= k
      {
        assert before[..i] == evs[..i];
      }
      OverlapBoundsDuplicates(w, clock, before, trip, student, k);
      assert before == evs[..|before|];
      TickStaysWithin(Run(s, before), evs[|evs| - 1], trip, student, k);
    }
  }

  ghost predicate KeysUnique(logs: seq<PickupLog>) {
    forall i, j | 0 <= i < j < |logs| && logs[i].key.Some? :: logs[i].key != logs[j].key
  }

  // What a call does to the log table, whoever makes it.
  lemma LogsOnlyGrow(w: World, th: Thread, now: nat, newId: Id)
    requires th.Running()
    ensures var logs' := Call(w, th, now, newId).world.logs;
            logs' == w.logs ||
            (Attends(th.req) && th.k == WriteAt(th.req) && LogAccepted(w.logs, LogOf(th.req, now)) &&
             logs' == w.logs + [LogOf(th.req, now)])
  {
    if NamesTrip(th.req) {
      LogsEffect(w, th, now, newId);
    } else if th.req.CreateTrip? {
      CreationEffect(w, th, now, newId);
    } else {
      Elsewhere(w, th, now, newId);
    }
    hide Call;
  }

  // Under every interleaving the log is append-only and no idempotency key is ever recorded twice.
  lemma {:induction false} KeysStayUnique(w: World, clock: nat, evs: seq<Event>)
    requires KeysUnique(w.logs)
    ensures KeysUnique(Run(Quiet(w, clock), evs).world.logs)
    ensures w.logs <= Run(Quiet(w, clock), evs).world.logs
  {
    hide Call;
    if evs != [] {
      var before, ev := evs[..|evs| - 1], evs[|evs| - 1];
      KeysStayUnique(w, clock, before);
      var s := Run(Quiet(w, clock), before);
      if Calls(s, ev) {
        LogsOnlyGrow(s.world, s.flight[ev.id], s.clock + ev.elapsed, ev.newId);
        assert forall k: Id :: KeyUsed(s.world.logs, k) <== exists i | 0 <= i < |s.world.logs| :: s.world.logs[i].key == Some(k);
      }
    }
  }

  // A request that has to be refused: it can only be told that the trip or the student does not fit,
  // or that the student was already recorded.
  predicate Refusal(r: Response) {
    r == NotFound || r == BadRequest || r == Conflict
  }

  predicate Attending(req: Request, trip: Id, student: Id) {
    Attends(req) && req.trip == trip && req.student == student
  }

  // The request id is on its way to a refusal or has had it.
  ghost predicate Futile(s: Sys, id: Id, trip: Id, student: Id) {
    Boarded(s.world.logs, trip, student) &&
    (id in s.flight ==> Attending(s.flight[id].req, trip, student) && s.flight[id].k <= 2) &&
    (id in s.answers ==> Refusal(s.answers[id])) &&
    (id in s.flight || id in s.answers)
  }

  lemma LateCallIsRefused(w: World, th: Thread, now: nat, newId: Id, trip: Id, student: Id)
    requires Attending(th.req, trip, student) && th.k <= 2 && Boarded(w.logs, trip, student)
    ensures var r := Call(w, th, now, newId);
            r.world == w && (r.Next? ==> th.k <= 1) && (r.Stop? ==> Refusal(r.answer))
  {
  }

  lemma BoardedForGood(logs: seq<PickupLog>, logs': seq<PickupLog>, trip: Id, student: Id)
    requires logs <= logs' && Boarded(logs, trip, student)
    ensures Boarded(logs', trip, student)
  {
    var i :| 0 <= i < |logs| && logs[i].trip == trip && logs[i].student == student && logs[i].action.Boards();
    assert logs'[i] == logs[i];
  }

  lemma TickStaysFutile(s: Sys, ev: Event, id: Id, trip: Id, student: Id)
    requires Futile(s, id, trip, student)
    ensures Futile(Tick(s, ev), id, trip, student)
  {
    hide Call, Boarded, Length;
    if Calls(s, ev) {
      var th, now := s.flight[ev.id], s.clock + ev.elapsed;
      LogsOnlyGrow(s.world, th, now, ev.newId);
      BoardedForGood(s.world.logs, Tick(s, ev).world.logs, trip, student);
      if ev.id == id {
        LateCallIsRefused(s.world, th, now, ev.newId, trip, student);
        if th.k <= 1 { AttendanceIsLong(th.req); }
      }
    }
  }

  lemma AttendanceIsLong(req: Request)
    requires Attends(req)
    ensures Length(req) > 3
  {
  }

  // A pickup, drop or absence request that arrives once the student is recorded as picked up or
  // dropped is refused and adds nothing, whatever else runs; it is never answered with the old log.
  lemma {:induction false} LateRequestsAreRefused(s: Sys, id: Id, req: Request, evs: seq<Event>)
    requires Attends(req) && Boarded(s.world.logs, req.trip, req.student)
    requires id !in s.flight && id !in s.answers
    ensures Futile(Run(Tick(s, Arrive(id, req)), evs), id, req.trip, req.student)
  {
    if evs != [] {
      LateRequestsAreRefused(s, id, req, evs[..|evs| - 1]);
      TickStaysFutile(Run(Tick(s, Arrive(id, req)), evs[..|evs| - 1]), evs[|evs| - 1], id, req.trip, req.student);
    }
  }

  predicate TripReadable(w: World, req: Request)
    requires Attends(req)
  {
    TripIn(w, req.trip, req.school) && w.trips[req.trip].driver == req.driver &&
    w.trips[req.trip].status == IN_PROGRESS && !w.trips[req.trip].deleted
  }

  predicate RiderOnVan(w: World, req: Request)
    requires Attends(req) && req.trip in w.trips
  {
    StudentIn(w, req.student, req.school) && w.students[req.student].van == Some(w.trips[req.trip].van) &&
    w.students[req.student].active && !w.students[req.student].deleted
  }

  // A pickup or drop request served on its own, up to its insertion.
  lemma BoardingAlone(w: World, req: Request, now: nat)
    requires req.MarkBoarding?
    ensures var (w', r) := Serve(w, req, now, 0);
            if !TripReadable(w, req) then w' == w && r == NotFound
            else if !RiderOnVan(w, req) then w' == w && r == BadRequest
            else if Boarded(w.logs, req.trip, req.student) then w' == w && r == Conflict
            else if req.key.Some? && KeyUsed(w.logs, req.key.value) then w' == w && r == LogRow(FindKey(w.logs, req.key.value))
            else if !LogAccepted(w.logs, LogOf(req, now)) then w' == w && r == DatabaseError
            else w'.logs == w.logs + [LogOf(req, now)] && r == LogRow(LogOf(req, now))
  {
    hide Serve, Drive, FindKey, Boarded, KeyUsed, LogAccepted;
    AttendanceReads(w, req, now, 0);
    if req.trip in w.trips {
      BoardingRecorded(w, Thread(req, 2, FRESH_LOCALS.(van := w.trips[req.trip].van)), now, 0);
    }
  }

  // The repository's README.md promises that a repeated key gets the old log. It does exactly when the
  // student has no pickup or drop on this trip yet: the log that comes back is then another student's,
  // another trip's, or an absence. The request that created a boarding log is told Conflict when repeated.
  lemma OldLogComesBackIff(w: World, req: Request, now: nat)
    requires req.MarkBoarding?
    ensures var (_, r) := Serve(w, req, now, 0);
            (r.LogRow? && r.log in w.logs) <==>
            (TripReadable(w, req) && RiderOnVan(w, req) && !Boarded(w.logs, req.trip, req.student) &&
             req.key.Some? && KeyUsed(w.logs, req.key.value))
    ensures var (_, r) := Serve(w, req, now, 0);
            r.LogRow? && r.log in w.logs ==>
              r.log.key == req.key && !(r.log.trip == req.trip && r.log.student == req.student && r.log.action.Boards())
  {
    BoardingAlone(w, req, now);
    hide Serve, TripReadable, RiderOnVan;
  }

  lemma RepeatedRequestConflicts(w: World, req: Request, now: nat, later: nat)
    requires req.MarkBoarding? && Serve(w, req, now, 0).0.logs != w.logs
    ensures var w1 := Serve(w, req, now, 0).0;
            TripReadable(w1, req) && RiderOnVan(w1, req) ==> Serve(w1, req, later, 0) == (w1, Conflict)
  {
    BoardingAlone(w, req, now);
    var w1 := Serve(w, req, now, 0).0;
    assert Boarded(w1.logs, req.trip, req.student) by {
      assert w1.logs[|w.logs|] == LogOf(req, now);
    }
    BoardingAlone(w1, req, later);
    hide Serve, TripReadable, RiderOnVan;
  }
}
