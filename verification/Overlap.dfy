// What overlapping requests on one trip can do, in every store, and why nothing else can.
module Overlap {
  import opened Options
  import opened Schema
  import opened Handlers
  import opened Effects
  import opened Machine
  import opened Lifecycle
  import opened Attendance

  // No other handler updates the trip while thread id is between its check and its write.
  ghost predicate Undisturbed(s: Sys, evs: seq<Event>, id: Id) {
    forall j | 0 <= j < |evs| :: !Disturbs(Run(s, evs[..j]), evs[j], id)
  }

  ghost predicate Disturbs(s: Sys, ev: Event, id: Id) {
    id in s.flight && InWindow(s.flight[id]) && Calls(s, ev) && ev.id != id &&
    Updates(s.flight[ev.id].req) && Writes(s.flight[ev.id]) && s.flight[ev.id].req.trip == s.flight[id].req.trip
  }

  // Thread id is between its check and its write and the check still holds.
  ghost predicate StillFits(s: Sys, id: Id) {
    id in s.flight && InWindow(s.flight[id]) ==>
      s.flight[id].req.trip in s.world.trips &&
      s.world.trips[s.flight[id].req.trip].status in Guard(s.flight[id].req)
  }

  lemma TickStillFits(s: Sys, ev: Event, id: Id)
    requires StillFits(s, id) && !Disturbs(s, ev, id)
    ensures StillFits(Tick(s, ev), id)
  {
    hide Call, Length;
    if Calls(s, ev) && id in s.flight && NamesTrip(s.flight[id].req) {
      var now := s.clock + ev.elapsed;
      if ev.id == id && s.flight[id].k == 0 {
        FirstRead(s.world, s.flight[id], now, ev.newId);
      } else if InWindow(s.flight[id]) && !(ev.id == id && Writes(s.flight[id])) {
        TripsOfCall(s.world, s.flight[ev.id], now, ev.newId, s.flight[id]);
      }
    }
  }

  // Whatever the rest of the run looks like, a handler that no trip update disturbs finds the trip in
  // a status it asked for when it comes to write: only overlap can make an illegal move.
  lemma {:induction false} UndisturbedHandlerWritesLegally(w: World, clock: nat, evs: seq<Event>, id: Id)
    requires Undisturbed(Quiet(w, clock), evs, id)
    ensures StillFits(Run(Quiet(w, clock), evs), id)
  {
    if evs != [] {
      var before, ev := evs[..|evs| - 1], evs[|evs| - 1];
      forall j | 0 <= j < |before|
        ensures !Disturbs(Run(Quiet(w, clock), before[..j]), before[j], id)
      {
        assert before[..j] == evs[..j];
      }
      UndisturbedHandlerWritesLegally(w, clock, before, id);
      assert before == evs[..|before|];
      TickStillFits(Run(Quiet(w, clock), before), ev, id);
    }
  }

  // A call that is not the update of the trip leaves its status alone.
  lemma TripsOfCall(w: World, th: Thread, now: nat, newId: Id, other: Thread)
    requires th.Running() && NamesTrip(other.req)
    requires !(Updates(th.req) && Writes(th) && th.req.trip == other.req.trip)
    ensures var w' := Call(w, th, now, newId).world;
            other.req.trip in w.trips ==>
              other.req.trip in w'.trips && w'.trips[other.req.trip] == w.trips[other.req.trip]
  {
    if NamesTrip(th.req) {
      TripsEffect(w, th, now, newId);
    } else if th.req.CreateTrip? {
      CreationEffect(w, th, now, newId);
    } else {
      Elsewhere(w, th, now, newId);
    }
    hide Call;
  }

  lemma RunOn(s: Sys, evs: seq<Event>, ev: Event)
    ensures Run(s, evs + [ev]) == Tick(Run(s, evs), ev)
  {
    assert (evs + [ev])[..|evs|] == evs;
  }

  // Both requests read the trip before either writes it.
  function BothReadThenWrite(a: Request, b: Request): seq<Event> {
    [Arrive(0, a), Arrive(1, b), Advance(0, 1, 0), Advance(1, 1, 0), Advance(0, 1, 0), Advance(1, 1, 0)]
  }

  predicate Readable(w: World, req: Request)
    requires NamesTrip(req)
  {
    TripIn(w, req.trip, req.school) && w.trips[req.trip].driver == req.driver &&
    w.trips[req.trip].status in Guard(req) && !w.trips[req.trip].deleted
  }

  lemma ReadCall(w: World, req: Request, now: nat)
    requires Updates(req) && Readable(w, req)
    ensures var r := Call(w, Opened(req), now, 0); r.Next? && r.world == w
  {
  }

  lemma UpdateCall(w: World, th: Thread, now: nat)
    requires Updates(th.req) && th.k == 1 && th.req.trip in w.trips
    ensures var r := Call(w, th, now, 0);
            r.Next? && r.world == w.(trips := w.trips[th.req.trip := TripAfter(w.trips[th.req.trip], WriteOf(th.req), now)])
  {
  }

  lemma TickReads(s: Sys, id: Id)
    requires id in s.flight && Updates(s.flight[id].req) && s.flight[id] == Opened(s.flight[id].req)
    requires Readable(s.world, s.flight[id].req)
    ensures var s' := Tick(s, Advance(id, 1, 0));
            s'.world == s.world && s'.clock == s.clock + 1 && s'.flight.Keys == s.flight.Keys &&
            s'.flight[id].req == s.flight[id].req && s'.flight[id].k == 1 &&
            forall o | o in s.flight && o != id :: s'.flight[o] == s.flight[o]
  {
    ReadCall(s.world, s.flight[id].req, s.clock + 1);
    hide Call;
  }

  lemma TickUpdates(s: Sys, id: Id)
    requires id in s.flight && Updates(s.flight[id].req) && s.flight[id].k == 1
    requires s.flight[id].req.trip in s.world.trips
    ensures var s', req := Tick(s, Advance(id, 1, 0)), s.flight[id].req;
            s'.world == s.world.(trips := s.world.trips[req.trip :=
              TripAfter(s.world.trips[req.trip], WriteOf(req), s.clock + 1)]) &&
            s'.clock == s.clock + 1 && s'.flight.Keys == s.flight.Keys &&
            s'.flight[id].req == req && s'.flight[id].k == 2 &&
            forall o | o in s.flight && o != id :: s'.flight[o] == s.flight[o]
  {
    hide Call, Length;
    UpdateCall(s.world, s.flight[id], s.clock + 1);
    UpdatesAreLong(s.flight[id].req);
  }

  lemma UpdatesAreLong(req: Request)
    requires Updates(req)
    ensures Length(req) > 2
  {
  }

  lemma BothRead(w: World, clock: nat, a: Request, b: Request)
    requires Updates(a) && Updates(b) && Readable(w, a) && Readable(w, b)
    ensures var s := Run(Quiet(w, clock), BothReadThenWrite(a, b)[..4]);
            s.world == w && s.clock == clock + 2 && s.flight.Keys == {0, 1} &&
            s.flight[0].req == a && s.flight[0].k == 1 && s.flight[1].req == b && s.flight[1].k == 1
  {
    hide Tick;
    var s := Quiet(w, clock);
    var evs := BothReadThenWrite(a, b);
    BothArrive(s, evs, a, b);
    assert evs[..3] == evs[..2] + [evs[2]] && evs[..4] == evs[..3] + [evs[3]];
    var s2, s3 := Run(s, evs[..2]), Run(s, evs[..3]);
    hide Run, Readable;
    RunOn(s, evs[..2], evs[2]);
    TickReads(s2, 0);
    assert 1 in s3.flight && s3.flight[1] == Opened(b) && s3.flight[0].req == a;
    RunOn(s, evs[..3], evs[3]);
    TickReads(s3, 1);
  }

  lemma BothReadThenWriteRuns(w: World, clock: nat, a: Request, b: Request)
    requires Updates(a) && Updates(b) && a.trip == b.trip && Readable(w, a) && Readable(w, b)
    ensures var evs := BothReadThenWrite(a, b);
            var first := TripAfter(w.trips[a.trip], WriteOf(a), clock + 3);
            Run(Quiet(w, clock), evs[..5]).world == w.(trips := w.trips[a.trip := first]) &&
            Run(Quiet(w, clock), evs).world == w.(trips := w.trips[a.trip := TripAfter(first, WriteOf(b), clock + 4)])
    ensures var flight := Run(Quiet(w, clock), BothReadThenWrite(a, b)).flight;
            flight.Keys == {0, 1} && flight[0].req == a && flight[0].k == 2 && flight[1].req == b && flight[1].k == 2
  {
    hide Tick, Run, TripAfter;
    var s := Quiet(w, clock);
    var evs := BothReadThenWrite(a, b);
    BothRead(w, clock, a, b);
    var s4, s5 := Run(s, evs[..4]), Run(s, evs[..5]);
    assert evs[..5] == evs[..4] + [evs[4]] && evs == evs[..5] + [evs[5]];
    RunOn(s, evs[..4], evs[4]);
    TickUpdates(s4, 0);
    RunOn(s, evs[..5], evs[5]);
    TickUpdates(s5, 1);
  }

  lemma BothArrive(s: Sys, evs: seq<Event>, a: Request, b: Request)
    requires s == Quiet(s.world, s.clock) && |evs| >= 2 && evs[0] == Arrive(0, a) && evs[1] == Arrive(1, b)
    ensures var s2 := Run(s, evs[..2]);
            s2.world == s.world && s2.clock == s.clock && s2.flight == map[0 := Opened(a), 1 := Opened(b)]
  {
    assert evs[..1] == [] + [evs[0]] && evs[..2] == evs[..1] + [evs[1]];
    RunOn(s, [], evs[0]);
    RunOn(s, evs[..1], evs[1]);
  }

  // Of all pairs of overlapping updates of one trip, only a start followed by an SOS is harmless: every
  // other second write finds the trip in a status its handler never accepted.
  lemma OnlyStartThenSosIsHarmless(w: World, clock: nat, a: Request, b: Request)
    requires Updates(a) && Updates(b) && a.trip == b.trip && Readable(w, a) && Readable(w, b)
    ensures var between := Run(Quiet(w, clock), BothReadThenWrite(a, b)[..5]).world;
            a.trip in between.trips &&
            (between.trips[a.trip].status in Guard(b) <==> a.StartTrip? && b.ActivateSOS?)
  {
    BothReadThenWriteRuns(w, clock, a, b);
    hide Run;
  }

  // Of any two handlers of one trip that have both made their checks, in any state of any run: after the
  // first has written, the trip is still in a status the second accepts exactly if the first only records
  // attendance, or for a start followed by an SOS.
  lemma SecondWriteFitsIff(s: Sys, a: Id, b: Id)
    requires a in s.flight && b in s.flight && a != b && Writes(s.flight[a]) && Writes(s.flight[b])
    requires var ra, rb := s.flight[a].req, s.flight[b].req;
             ra.trip == rb.trip && ra.trip in s.world.trips && s.world.trips[ra.trip].status in Guard(ra) * Guard(rb)
    ensures var s', ra, rb := Tick(s, Advance(a, 0, 0)), s.flight[a].req, s.flight[b].req;
            b in s'.flight && s'.flight[b] == s.flight[b] && ra.trip in s'.world.trips &&
            (s'.world.trips[ra.trip].status in Guard(rb) <==> Attends(ra) || (ra.StartTrip? && rb.ActivateSOS?))
  {
    hide Call;
    TripsEffect(s.world, s.flight[a], s.clock, 0);
  }

  predicate StatusIs(w: World, t: Id, status: Status) {
    t in w.trips && w.trips[t].status == status
  }

  predicate StartedAt(w: World, t: Id, at: nat) {
    t in w.trips && w.trips[t].actualStart == Some(at)
  }

  // In every store with a trip in progress, an end and an SOS that overlap complete the trip and then
  // take it back to SOS_ACTIVE.
  lemma CompletedIsLeft(w: World, clock: nat, t: Id, loc: Location, at: Option<Location>)
    requires StatusIs(w, t, IN_PROGRESS) && !w.trips[t].deleted
    ensures var row := w.trips[t];
            var evs := BothReadThenWrite(EndTrip(row.school, row.driver, t, loc), ActivateSOS(row.school, row.driver, t, at));
            StatusIs(Run(Quiet(w, clock), evs[..5]).world, t, COMPLETED) &&
            StatusIs(Run(Quiet(w, clock), evs).world, t, SOS_ACTIVE)
  {
    var row := w.trips[t];
    BothReadThenWriteRuns(w, clock, EndTrip(row.school, row.driver, t, loc), ActivateSOS(row.school, row.driver, t, at));
    hide Run;
  }

  // Two resolutions of one SOS that overlap complete the trip and then take it back to IN_PROGRESS.
  lemma CompletedIsResumed(w: World, clock: nat, t: Id)
    requires StatusIs(w, t, SOS_ACTIVE) && !w.trips[t].deleted
    ensures var row := w.trips[t];
            var evs := BothReadThenWrite(ResolveSOS(row.school, row.driver, t, false), ResolveSOS(row.school, row.driver, t, true));
            var end := Run(Quiet(w, clock), evs).world;
            StatusIs(Run(Quiet(w, clock), evs[..5]).world, t, COMPLETED) &&
            StatusIs(end, t, IN_PROGRESS) && !RowLaw(end.trips[t])
  {
    var row := w.trips[t];
    BothReadThenWriteRuns(w, clock, ResolveSOS(row.school, row.driver, t, false), ResolveSOS(row.school, row.driver, t, true));
    hide Run;
  }

  // Two starts that overlap write the start time twice.
  lemma StartIsOverwritten(w: World, clock: nat, t: Id, loc: Location)
    requires StatusIs(w, t, NOT_STARTED) && !w.trips[t].deleted
    ensures var row := w.trips[t];
            var evs := BothReadThenWrite(StartTrip(row.school, row.driver, t, loc), StartTrip(row.school, row.driver, t, loc));
            StartedAt(Run(Quiet(w, clock), evs[..5]).world, t, clock + 3) &&
            StartedAt(Run(Quiet(w, clock), evs).world, t, clock + 4)
  {
    var row := w.trips[t];
    BothReadThenWriteRuns(w, clock, StartTrip(row.school, row.driver, t, loc), StartTrip(row.school, row.driver, t, loc));
    hide Run;
  }

  // ---- duplicate boarding logs ----

  // A pickup without idempotency key that passes every check of its handler.
  predicate Boardable(w: World, req: Request) {
    req.MarkBoarding? && req.key.None? && TripReadable(w, req) && RiderOnVan(w, req) &&
    !Boarded(w.logs, req.trip, req.student)
  }

  // Every recorded time is past.
  ghost predicate LogsBefore(w: World, clock: nat) {
    forall j | 0 <= j < |w.logs| :: w.logs[j].takenAt <= clock
  }

  // The handler after its four checks.
  function Checked(w: World, req: Request): Thread
    requires Boardable(w, req)
  {
    Thread(req, 4, FRESH_LOCALS.(van := w.trips[req.trip].van))
  }

  // n copies of the request, all past their checks.
  ghost function Waiting(w: World, req: Request, n: nat): (flight: map<Id, Thread>)
    requires Boardable(w, req)
    ensures forall i: Id :: i in flight <==> i < n
    ensures forall i | i in flight :: flight[i] == Checked(w, req)
  {
    if n == 0 then map[] else Waiting(w, req, n - 1)[n - 1 := Checked(w, req)]
  }

  ghost function Queue(w: World, clock: nat, req: Request, n: nat): Sys
    requires Boardable(w, req)
  {
    Sys(w, Waiting(w, req, n), map[], clock + 4 * n)
  }

  lemma CheckCalls(w: World, th: Thread, now: nat)
    requires Boardable(w, th.req) && th.k < 4
    requires th.locals == if th.k == 0 then FRESH_LOCALS else FRESH_LOCALS.(van := w.trips[th.req.trip].van)
    ensures Call(w, th, now, 0) == Next(w, FRESH_LOCALS.(van := w.trips[th.req.trip].van))
  {
  }

  // One more copy arrives and makes its four checks.
  lemma OneMoreChecks(s: Sys, req: Request, id: Id) returns (evs: seq<Event>)
    requires Boardable(s.world, req) && id !in s.flight && id !in s.answers
    ensures Run(s, evs) == s.(flight := s.flight[id := Checked(s.world, req)], clock := s.clock + 4)
  {
    hide Call;
    var v := FRESH_LOCALS.(van := s.world.trips[req.trip].van);
    evs := [] + [Arrive(id, req)];
    RunOn(s, [], Arrive(id, req));
    var k := 0;
    while k < 4
      invariant k <= 4
      invariant Run(s, evs) ==
        s.(flight := s.flight[id := Thread(req, k, if k == 0 then FRESH_LOCALS else v)], clock := s.clock + k)
    {
      var at := Run(s, evs);
      CheckCalls(s.world, at.flight[id], at.clock + 1);
      RunOn(s, evs, Advance(id, 1, 0));
      evs := evs + [Advance(id, 1, 0)];
      assert at.flight[id := Thread(req, k + 1, v)] == s.flight[id := Thread(req, k + 1, v)];
      k := k + 1;
    }
  }

  lemma RunJoins(s: Sys, a: seq<Event>, b: seq<Event>)
    ensures Run(s, a + b) == Run(Run(s, a), b)
  {
    if b == [] {
      assert a + b == a;
    } else {
      assert (a + b)[..|a + b| - 1] == a + b[..|b| - 1];
      RunJoins(s, a, b[..|b| - 1]);
    }
  }

  lemma QueueForms(w: World, clock: nat, req: Request, n: nat) returns (evs: seq<Event>)
    requires Boardable(w, req)
    ensures Run(Quiet(w, clock), evs) == Queue(w, clock, req, n)
  {
    hide Boardable, Checked, Call, Tick;
    if n == 0 {
      evs := [];
    } else {
      hide Run;
      var first := QueueForms(w, clock, req, n - 1);
      var rest := OneMoreChecks(Queue(w, clock, req, n - 1), req, n - 1);
      evs := first + rest;
      RunJoins(Quiet(w, clock), first, rest);
    }
  }

  // The first i of the n waiting copies have inserted their log.
  ghost predicate Draining(s: Sys, w: World, req: Request, n: nat, i: nat)
    requires Boardable(w, req)
  {
    (forall j | i <= j < n :: j in s.flight && s.flight[j] == Checked(w, req)) &&
    Boardings(s.world.logs, req.trip, req.student) == i &&
    LogsBefore(s.world, s.clock)
  }

  lemma InsertCall(w: World, th: Thread, now: nat)
    requires th.req.MarkBoarding? && th.k == 4 && th.req.key.None? && now > 0 && LogsBefore(w, now - 1)
    ensures var r := Call(w, th, now, 0); r.Next? && r.world == w.(logs := w.logs + [LogOf(th.req, now)])
  {
  }

  lemma OneMoreInserts(s: Sys, w: World, req: Request, n: nat, i: nat)
    requires Boardable(w, req) && i < n && Draining(s, w, req, n, i)
    ensures Draining(Tick(s, Advance(i, 1, 0)), w, req, n, i + 1)
  {
    hide Call;
    InsertCall(s.world, s.flight[i], s.clock + 1);
    var logs' := Tick(s, Advance(i, 1, 0)).world.logs;
    assert logs'[..|logs'| - 1] == s.world.logs;
  }

  // The bound of OverlapBoundsDuplicates is reached for every n: n pickups of one student that
  // overlap leave n logs.
  lemma AnyNumberOfDuplicates(w: World, clock: nat, req: Request, n: nat) returns (evs: seq<Event>)
    requires Boardable(w, req) && LogsBefore(w, clock)
    ensures Boardings(Run(Quiet(w, clock), evs).world.logs, req.trip, req.student) == n
  {
    evs := QueueForms(w, clock, req, n);
    BoardedMeansCounted(w.logs, req.trip, req.student);
    var i := 0;
    while i < n
      invariant i <= n && Draining(Run(Quiet(w, clock), evs), w, req, n, i)
    {
      OneMoreInserts(Run(Quiet(w, clock), evs), w, req, n, i);
      RunOn(Quiet(w, clock), evs, Advance(i, 1, 0));
      evs := evs + [Advance(i, 1, 0)];
      i := i + 1;
    }
  }

  // ---- a log on a completed trip ----

  // endTrip arrives, reads and completes the trip in the middle of a pickup.
  lemma EndsMeanwhile(s: Sys, id: Id, req: Request) returns (evs: seq<Event>)
    requires req.EndTrip? && Readable(s.world, req) && id !in s.flight && id !in s.answers
    ensures var s' := Run(s, evs);
            s'.world == s.world.(trips := s.world.trips[req.trip :=
              TripAfter(s.world.trips[req.trip], WriteEnd, s.clock + 2)]) &&
            s'.clock == s.clock + 2 && forall o | o in s.flight :: o in s'.flight && s'.flight[o] == s.flight[o]
  {
    hide Call;
    var a, b := Arrive(id, req), Advance(id, 1, 0);
    evs := [] + [a] + [b] + [b];
    RunOn(s, [], a);
    RunOn(s, [] + [a], b);
    RunOn(s, [] + [a] + [b], b);
    var s1 := Tick(s, a);
    TickReads(s1, id);
    TickUpdates(Tick(s1, b), id);
  }

  // A pickup that has made its checks when the trip is ended adds its log to the completed trip.
  lemma LogAfterCompletion(w: World, clock: nat, req: Request, loc: Location) returns (before: seq<Event>, last: Event)
    requires Boardable(w, req) && LogsBefore(w, clock)
    ensures var ended, done := Run(Quiet(w, clock), before).world, Run(Quiet(w, clock), before + [last]).world;
            StatusIs(ended, req.trip, COMPLETED) && ended.logs == w.logs &&
            StatusIs(done, req.trip, COMPLETED) && |done.logs| == |w.logs| + 1 && done.logs[|w.logs|].trip == req.trip
  {
    hide Call;
    var s := Quiet(w, clock);
    var checks := OneMoreChecks(s, req, 0);
    var row := w.trips[req.trip];
    var ends := EndsMeanwhile(Run(s, checks), 1, EndTrip(row.school, row.driver, req.trip, loc));
    RunJoins(s, checks, ends);
    before, last := checks + ends, Advance(0, 1, 0);
    RunOn(s, before, last);
    var at := Run(s, before);
    InsertCall(at.world, at.flight[0], at.clock + 1);
  }

  // ---- an absence after a boarding ----

  predicate Absents(w: World, req: Request) {
    req.MarkAbsent? && req.key.None? && TripReadable(w, req) && RiderOnVan(w, req) &&
    !Boarded(w.logs, req.trip, req.student)
  }

  function AbsentChecked(w: World, req: Request): Thread
    requires Absents(w, req)
  {
    Thread(req, 3, FRESH_LOCALS.(van := w.trips[req.trip].van))
  }

  lemma AbsentCalls(w: World, th: Thread, now: nat)
    requires Absents(w, th.req) && th.k < 3
    requires th.locals == if th.k == 0 then FRESH_LOCALS else FRESH_LOCALS.(van := w.trips[th.req.trip].van)
    ensures Call(w, th, now, 0) == Next(w, FRESH_LOCALS.(van := w.trips[th.req.trip].van))
  {
  }

  lemma AbsentChecks(s: Sys, req: Request, id: Id) returns (evs: seq<Event>)
    requires Absents(s.world, req) && id !in s.flight && id !in s.answers
    ensures Run(s, evs) == s.(flight := s.flight[id := AbsentChecked(s.world, req)], clock := s.clock + 3)
  {
    hide Call;
    var v := FRESH_LOCALS.(van := s.world.trips[req.trip].van);
    evs := [] + [Arrive(id, req)];
    RunOn(s, [], Arrive(id, req));
    var k := 0;
    while k < 3
      invariant k <= 3
      invariant Run(s, evs) ==
        s.(flight := s.flight[id := Thread(req, k, if k == 0 then FRESH_LOCALS else v)], clock := s.clock + k)
    {
      var at := Run(s, evs);
      AbsentCalls(s.world, at.flight[id], at.clock + 1);
      RunOn(s, evs, Advance(id, 1, 0));
      evs := evs + [Advance(id, 1, 0)];
      assert at.flight[id := Thread(req, k + 1, v)] == s.flight[id := Thread(req, k + 1, v)];
      k := k + 1;
    }
  }

  lemma AbsenceInserts(w: World, th: Thread, now: nat)
    requires th.req.MarkAbsent? && th.k == 3 && th.req.key.None? && now > 0 && LogsBefore(w, now - 1)
    ensures var r := Call(w, th, now, 0); r.Next? && r.world == w.(logs := w.logs + [LogOf(th.req, now)])
  {
  }

  // An absence that has made its checks when the student is picked up is logged after the pickup.
  lemma AbsenceAfterBoarding(w: World, clock: nat, a: Request, b: Request) returns (evs: seq<Event>)
    requires Absents(w, a) && Boardable(w, b) && a.trip == b.trip && a.student == b.student && LogsBefore(w, clock)
    ensures var logs, n := Run(Quiet(w, clock), evs).world.logs, |w.logs|;
            |logs| == n + 2 && logs[n].trip == logs[n + 1].trip == a.trip && logs[n].student == logs[n + 1].student == a.student &&
            logs[n].action.Boards() && logs[n + 1].action == ABSENT && !LogShape(logs)
  {
    hide Call;
    var s := Quiet(w, clock);
    var first := AbsentChecks(s, a, 0);
    var second := OneMoreChecks(Run(s, first), b, 1);
    RunJoins(s, first, second);
    var e1, e2 := Advance(1, 1, 0), Advance(0, 1, 0);
    var at := Run(s, first + second);
    RunOn(s, first + second, e1);
    InsertCall(at.world, at.flight[1], at.clock + 1);
    var at1 := Run(s, first + second + [e1]);
    BoardingIsLong(b);
    RunOn(s, first + second + [e1], e2);
    AbsenceInserts(at1.world, at1.flight[0], at1.clock + 1);
    evs := first + second + [e1] + [e2];
  }

  lemma BoardingIsLong(req: Request)
    requires req.MarkBoarding?
    ensures Length(req) == 7
  {
  }

  // ---- alerts that no longer tell the status ----

  predicate Alarms(w: World, req: Request) {
    req.ActivateSOS? && req.at.None? && Readable(w, req)
  }

  // The last two calls of an SOS without position: nothing is stored, the alert is raised.
  lemma AlarmRuns(s: Sys, evs: seq<Event>, id: Id) returns (evs': seq<Event>)
    requires var at := Run(s, evs); id in at.flight && at.flight[id].req.ActivateSOS? && at.flight[id].req.at.None? && at.flight[id].k == 2
    ensures var at, s' := Run(s, evs), Run(s, evs');
            var th := at.flight[id];
            s'.world == at.world.(alerts := at.world.alerts + [Alert(th.req.school, th.req.trip, th.locals.van, SOS)]) &&
            s'.flight == at.flight - {id} && s'.clock == at.clock + 2
  {
    hide Run;
    var at := Run(s, evs);
    var ev := Advance(id, 1, 0);
    AlarmCalls(at.world, at.flight[id], at.clock + 1);
    hide Call;
    RunOn(s, evs, ev);
    var at1 := Run(s, evs + [ev]);
    assert id in at1.flight && at1.world == at.world && at1.flight == at.flight[id := Thread(at.flight[id].req, 3, at.flight[id].locals)];
    AlarmCalls(at1.world, at1.flight[id], at1.clock + 1);
    RunOn(s, evs + [ev], ev);
    evs' := evs + [ev] + [ev];
    assert at1.flight - {id} == at.flight - {id};
  }

  lemma AlarmCalls(w: World, th: Thread, now: nat)
    requires th.req.ActivateSOS? && th.req.at.None? && 2 <= th.k <= 3
    ensures Call(w, th, now, 0) == if th.k == 2 then Next(w, th.locals)
              else Next(w.(alerts := w.alerts + [Alert(th.req.school, th.req.trip, th.locals.van, SOS)]), th.locals)
  {
  }

  lemma CountOn(alerts: seq<Alert>, a: Alert, trip: Id, kind: AlertKind)
    ensures Count(alerts + [a], trip, kind) == Count(alerts, trip, kind) + One(a.trip == trip && a.kind == kind)
  {
    assert (alerts + [a])[..|alerts|] == alerts;
  }

  // Two overlapping SOS of one trip raise two alerts for the one state of alarm, and with nothing left in
  // flight the alerts count one too many for good.
  lemma TwoAlarms(w: World, clock: nat, a: Request, b: Request) returns (evs: seq<Event>)
    requires Alarms(w, a) && Alarms(w, b) && a.trip == b.trip
    requires Count(w.alerts, a.trip, SOS) == Count(w.alerts, a.trip, SOS_RESOLVED)
    ensures var s := Run(Quiet(w, clock), evs);
            s.flight == map[] && InSos(s.world, a.trip) &&
            Count(s.world.alerts, a.trip, SOS) == Count(s.world.alerts, a.trip, SOS_RESOLVED) + 2
  {
    hide Run, Call, Count;
    var s := Quiet(w, clock);
    evs := BothReadThenWrite(a, b);
    BothReadThenWriteRuns(w, clock, a, b);
    var at := Run(s, evs);
    evs := AlarmRuns(s, evs, 0);
    var at1 := Run(s, evs);
    CountOn(at.world.alerts, Alert(a.school, a.trip, at.flight[0].locals.van, SOS), a.trip, SOS);
    CountOn(at.world.alerts, Alert(a.school, a.trip, at.flight[0].locals.van, SOS), a.trip, SOS_RESOLVED);
    evs := AlarmRuns(s, evs, 1);
    CountOn(at1.world.alerts, Alert(b.school, b.trip, at1.flight[1].locals.van, SOS), a.trip, SOS);
    CountOn(at1.world.alerts, Alert(b.school, b.trip, at1.flight[1].locals.van, SOS), a.trip, SOS_RESOLVED);
  }
}
