// The life of a trip when no write slips between another handler's check and its write on the same
// trip. Handlers of other trips, and fleet handlers, interleave freely.
module Lifecycle {
  import opened Schema
  import opened Handlers
  import opened Effects
  import opened Machine

  predicate LegalMove(from: Status, to: Status) {
    from == to ||
    (from == NOT_STARTED && (to == IN_PROGRESS || to == SOS_ACTIVE)) ||
    (from == IN_PROGRESS && (to == COMPLETED || to == SOS_ACTIVE)) ||
    (from == SOS_ACTIVE && (to == IN_PROGRESS || to == COMPLETED))
  }

  // The write of one handler takes away what another has found out about the same trip: a boarding, if
  // the other has made its duplicate check for the student; an update of the trip, unless it is a start
  // and the other is on its way to an SOS. An absence takes nothing away.
  predicate Clash(writer: Thread, other: Thread) {
    NamesTrip(writer.req) && InWindow(other) && writer.req.trip == other.req.trip &&
    (if Attends(writer.req)
     then writer.req.MarkBoarding? && Attends(other.req) && other.k >= 3 && writer.req.student == other.req.student
     else !(writer.req.StartTrip? && other.req.ActivateSOS?))
  }

  ghost predicate CleanStep(s: Sys, ev: Event) {
    Calls(s, ev) && Writes(s.flight[ev.id]) ==>
      forall o | o in s.flight && o != ev.id :: !Clash(s.flight[ev.id], s.flight[o])
  }

  ghost predicate CleanRun(s: Sys, evs: seq<Event>) {
    forall i | 0 <= i < |evs| :: CleanStep(Run(s, evs[..i]), evs[i])
  }

  predicate RowLaw(r: Trip) {
    (r.status == COMPLETED <==> r.actualEnd.Some?) && (r.status == NOT_STARTED ==> r.actualStart.None?)
  }

  function Count(alerts: seq<Alert>, trip: Id, kind: AlertKind): nat {
    if alerts == [] then 0 else
      var last := alerts[|alerts| - 1];
      Count(alerts[..|alerts| - 1], trip, kind) + if last.trip == trip && last.kind == kind then 1 else 0
  }

  // After its trip update an SOS handler owes one alert until it has raised it.
  predicate OwesSos(th: Thread, trip: Id) {
    th.req.ActivateSOS? && th.req.trip == trip && 2 <= th.k <= 3
  }

  predicate OwesResolve(th: Thread, trip: Id) {
    th.req.ResolveSOS? && th.req.trip == trip && th.k == 2
  }

  ghost function Owing(flight: map<Id, Thread>, owes: Thread -> bool): set<Id> {
    set id | id in flight && owes(flight[id])
  }

  ghost function SosDue(flight: map<Id, Thread>, trip: Id): set<Id> {
    Owing(flight, th => OwesSos(th, trip))
  }

  ghost function ResolveDue(flight: map<Id, Thread>, trip: Id): set<Id> {
    Owing(flight, th => OwesResolve(th, trip))
  }

  predicate InSos(w: World, trip: Id) {
    trip in w.trips && w.trips[trip].status == SOS_ACTIVE
  }

  // Alerts raised or about to be raised: one SOS more than resolutions exactly while the SOS lasts.
  ghost predicate Balanced(s: Sys, trip: Id) {
    Count(s.world.alerts, trip, SOS) + |SosDue(s.flight, trip)| ==
    Count(s.world.alerts, trip, SOS_RESOLVED) + |ResolveDue(s.flight, trip)| + if InSos(s.world, trip) then 1 else 0
  }

  // Per trip and student: absences, then at most one boarding, then nothing.
  ghost predicate LogShape(logs: seq<PickupLog>) {
    forall i, j | 0 <= i < j < |logs| && logs[i].trip == logs[j].trip && logs[i].student == logs[j].student ::
      !logs[i].action.Boards()
  }

  // What a handler found out still holds when it comes to use it.
  ghost predicate Promise(w: World, th: Thread) {
    (InWindow(th) ==> th.req.trip in w.trips && w.trips[th.req.trip].status in Guard(th.req)) &&
    (InWindow(th) && Attends(th.req) && th.k >= 3 ==> !Boarded(w.logs, th.req.trip, th.req.student)) &&
    (th.req.EndTrip? && th.k >= 2 ==> th.req.trip in w.trips && w.trips[th.req.trip].status == COMPLETED)
  }

  ghost predicate RowsLawful(w: World) {
    forall t | t in w.trips :: RowLaw(w.trips[t])
  }

  ghost predicate Lawful(s: Sys) {
    RowsLawful(s.world) && LogShape(s.world.logs) &&
    (forall id | id in s.flight :: Promise(s.world, s.flight[id])) &&
    (forall t :: Balanced(s, t))
  }

  // The rows, logs and promises of a call that writes while its own promise holds.
  lemma CallKeepsRows(w: World, th: Thread, now: nat, newId: Id)
    requires th.Running() && RowsLawful(w) && Promise(w, th)
    ensures RowsLawful(Call(w, th, now, newId).world)
    ensures var w' := Call(w, th, now, newId).world;
            forall t | t in w.trips ::
              t in w'.trips && LegalMove(w.trips[t].status, w'.trips[t].status) &&
              (w.trips[t].actualStart == w'.trips[t].actualStart || w.trips[t].actualStart.None?) &&
              (w.trips[t].status == COMPLETED ==> w'.trips[t] == w.trips[t])
  {
    if NamesTrip(th.req) {
      TripsEffect(w, th, now, newId);
    } else if th.req.CreateTrip? {
      CreationEffect(w, th, now, newId);
    } else {
      Elsewhere(w, th, now, newId);
    }
    hide Call;
  }

  lemma CallKeepsLogShape(w: World, th: Thread, now: nat, newId: Id)
    requires th.Running() && LogShape(w.logs) && Promise(w, th)
    ensures var w' := Call(w, th, now, newId).world;
            LogShape(w'.logs) &&
            (w'.logs == w.logs ||
             (Attends(th.req) && Writes(th) && w'.logs == w.logs + [LogOf(th.req, now)] &&
              th.req.trip in w.trips && w.trips[th.req.trip].status == IN_PROGRESS))
  {
    hide Call;
    if NamesTrip(th.req) {
      LogsEffect(w, th, now, newId);
    } else if th.req.CreateTrip? {
      CreationEffect(w, th, now, newId);
    } else {
      Elsewhere(w, th, now, newId);
    }
  }

  lemma CallKeepsOwnPromise(w: World, th: Thread, now: nat, newId: Id)
    requires th.Running() && Promise(w, th)
    ensures var r := Call(w, th, now, newId);
            r.Next? ==> Promise(r.world, Thread(th.req, th.k + 1, r.locals))
  {
    if NamesTrip(th.req) {
      TripsEffect(w, th, now, newId);
      LogsEffect(w, th, now, newId);
      if th.k == 0 {
        FirstRead(w, th, now, newId);
        hide Call;
      } else if Attends(th.req) && th.k == 2 {
      } else {
        hide Call;
      }
    }
  }

  lemma CallKeepsOtherPromises(w: World, th: Thread, other: Thread, now: nat, newId: Id)
    requires th.Running() && Promise(w, th) && Promise(w, other)
    requires Writes(th) ==> !Clash(th, other)
    ensures Promise(Call(w, th, now, newId).world, other)
  {
    hide Call;
    if NamesTrip(th.req) {
      TripsEffect(w, th, now, newId);
      LogsEffect(w, th, now, newId);
    } else if th.req.CreateTrip? {
      CreationEffect(w, th, now, newId);
    } else {
      Elsewhere(w, th, now, newId);
    }
  }

  // A write that goes through, of a handler whose own findings hold, leaves what another handler has found
  // out true exactly when the two do not clash.
  lemma ClashIff(w: World, th: Thread, other: Thread, now: nat, newId: Id)
    requires th.Running() && Writes(th) && Promise(w, th) && Promise(w, other)
    requires Attends(th.req) ==> LogAccepted(w.logs, LogOf(th.req, now))
    ensures Promise(Call(w, th, now, newId).world, other) <==> !Clash(th, other)
  {
    if Clash(th, other) {
      TripsEffect(w, th, now, newId);
      if Attends(th.req) {
        AcceptedLogIsWritten(w, th, now, newId);
        assert LogOf(th.req, now).action.Boards();
        var logs' := Call(w, th, now, newId).world.logs;
        assert logs'[|w.logs|] == LogOf(th.req, now);
      }
      hide Call;
    } else {
      hide Call, Promise;
      CallKeepsOtherPromises(w, th, other, now, newId);
    }
  }

  lemma AcceptedLogIsWritten(w: World, th: Thread, now: nat, newId: Id)
    requires th.Running() && Writes(th) && Attends(th.req) && LogAccepted(w.logs, LogOf(th.req, now))
    ensures Call(w, th, now, newId).world.logs == w.logs + [LogOf(th.req, now)]
  {
    hide LogAccepted;
  }

  function One(b: bool): nat {
    if b then 1 else 0
  }

  // What a call changes in the balance of a trip: alerts raised, alerts due, and the status.
  predicate CallKeepsBalance(w: World, th: Thread, r: Step, trip: Id) {
    Count(r.world.alerts, trip, SOS) + One(r.Next? && OwesSos(Later(th, r), trip)) - One(OwesSos(th, trip))
      - Count(r.world.alerts, trip, SOS_RESOLVED) - One(r.Next? && OwesResolve(Later(th, r), trip)) + One(OwesResolve(th, trip))
      - One(InSos(r.world, trip))
    == Count(w.alerts, trip, SOS) - Count(w.alerts, trip, SOS_RESOLVED) - One(InSos(w, trip))
  }

  lemma CallCounts(w: World, th: Thread, now: nat, newId: Id, trip: Id)
    requires th.Running() && NamesTrip(th.req)
    ensures var alerts' := Call(w, th, now, newId).world.alerts;
            Count(alerts', trip, SOS) == Count(w.alerts, trip, SOS) + One(th.req.ActivateSOS? && th.k == 3 && th.req.trip == trip) &&
            Count(alerts', trip, SOS_RESOLVED)
            == Count(w.alerts, trip, SOS_RESOLVED) + One(th.req.ResolveSOS? && th.k == 2 && th.req.trip == trip)
  {
    hide Call, Length;
    AlertsEffect(w, th, now, newId);
    var alerts' := Call(w, th, now, newId).world.alerts;
    assert alerts' == w.alerts || alerts'[..|alerts'| - 1] == w.alerts;
  }

  lemma CallChangesSos(w: World, th: Thread, now: nat, newId: Id, trip: Id)
    requires th.Running() && Promise(w, th) && NamesTrip(th.req)
    ensures One(InSos(Call(w, th, now, newId).world, trip)) + One(th.req.ResolveSOS? && th.k == 1 && th.req.trip == trip)
            == One(InSos(w, trip)) + One(th.req.ActivateSOS? && th.k == 1 && th.req.trip == trip)
  {
    hide Call, Length, Boarded;
    TripsEffect(w, th, now, newId);
  }

  lemma TripCallBalances(w: World, th: Thread, now: nat, newId: Id, trip: Id)
    requires th.Running() && Promise(w, th) && NamesTrip(th.req)
    ensures CallKeepsBalance(w, th, Call(w, th, now, newId), trip)
  {
    hide Call, Length, Promise, InSos, Count;
    CallCounts(w, th, now, newId, trip);
    CallChangesSos(w, th, now, newId, trip);
    if Updates(th.req) && th.k >= 1 { OnlyReadsRefuse(w, th, now, newId); }
  }

  lemma CallBalances(w: World, th: Thread, now: nat, newId: Id, trip: Id)
    requires th.Running() && Promise(w, th)
    ensures CallKeepsBalance(w, th, Call(w, th, now, newId), trip)
  {
    hide Call, Length;
    if NamesTrip(th.req) {
      TripCallBalances(w, th, now, newId, trip);
    } else if th.req.CreateTrip? {
      CreationEffect(w, th, now, newId);
    } else {
      Elsewhere(w, th, now, newId);
    }
  }

  lemma OnlyReadsRefuse(w: World, th: Thread, now: nat, newId: Id)
    requires th.Running() && Promise(w, th) && Updates(th.req) && th.k >= 1
    ensures Call(w, th, now, newId).Next?
  {
  }

  lemma OwingReplaced(flight: map<Id, Thread>, id: Id, th: Thread, owes: Thread -> bool)
    requires id in flight
    ensures |Owing(flight[id := th], owes)| == |Owing(flight, owes)| - One(owes(flight[id])) + One(owes(th))
  {
    var before, after := Owing(flight, owes), Owing(flight[id := th], owes);
    if owes(th) {
      assert after == before - {id} + {id};
    } else {
      assert after == before - {id};
    }
  }

  lemma OwingDropped(flight: map<Id, Thread>, id: Id, owes: Thread -> bool)
    requires id in flight
    ensures |Owing(flight - {id}, owes)| == |Owing(flight, owes)| - One(owes(flight[id]))
  {
    assert Owing(flight - {id}, owes) == Owing(flight, owes) - {id};
  }

  lemma OwingAfter(s: Sys, id: Id, r: Step, now: nat, owes: Thread -> bool)
    requires id in s.flight
    requires r.Next? && owes(Later(s.flight[id], r)) ==> Later(s.flight[id], r).Running()
    ensures |Owing(After(s, id, r, now).flight, owes)| ==
            |Owing(s.flight, owes)| - One(owes(s.flight[id])) + One(r.Next? && owes(Later(s.flight[id], r)))
  {
    hide Owing, Length;
    if r.Next? && Later(s.flight[id], r).Running() {
      OwingReplaced(s.flight, id, Later(s.flight[id], r), owes);
    } else {
      OwingDropped(s.flight, id, owes);
    }
  }

  lemma ArrivalBalances(s: Sys, ev: Event, trip: Id)
    requires Balanced(s, trip) && ev.Arrive?
    ensures Balanced(Tick(s, ev), trip)
  {
    assert SosDue(Tick(s, ev).flight, trip) == SosDue(s.flight, trip);
    assert ResolveDue(Tick(s, ev).flight, trip) == ResolveDue(s.flight, trip);
  }

  lemma TickBalances(s: Sys, ev: Event, trip: Id)
    requires Lawful(s)
    ensures Balanced(Tick(s, ev), trip)
  {
    hide Call, Promise, RowsLawful, LogShape, Owing;
    assert Balanced(s, trip);
    if ev.Arrive? {
      ArrivalBalances(s, ev, trip);
    } else if Calls(s, ev) {
      var now := s.clock + ev.elapsed;
      var r := Call(s.world, s.flight[ev.id], now, ev.newId);
      CallBalances(s.world, s.flight[ev.id], now, ev.newId, trip);
      OwingAfter(s, ev.id, r, now, th => OwesSos(th, trip));
      OwingAfter(s, ev.id, r, now, th => OwesResolve(th, trip));
    }
  }

  lemma TickKeepsPromises(s: Sys, ev: Event, id: Id)
    requires Lawful(s) && CleanStep(s, ev) && id in Tick(s, ev).flight
    ensures Promise(Tick(s, ev).world, Tick(s, ev).flight[id])
  {
    hide Call;
    if Calls(s, ev) {
      var th, now := s.flight[ev.id], s.clock + ev.elapsed;
      if id == ev.id {
        CallKeepsOwnPromise(s.world, th, now, ev.newId);
      } else {
        CallKeepsOtherPromises(s.world, th, s.flight[id], now, ev.newId);
      }
    }
  }

  lemma TickIsLawful(s: Sys, ev: Event)
    requires Lawful(s) && CleanStep(s, ev)
    ensures Lawful(Tick(s, ev))
  {
    hide Call, Promise, Balanced;
    if Calls(s, ev) {
      CallKeepsRows(s.world, s.flight[ev.id], s.clock + ev.elapsed, ev.newId);
      CallKeepsLogShape(s.world, s.flight[ev.id], s.clock + ev.elapsed, ev.newId);
    }
    forall id | id in Tick(s, ev).flight
      ensures Promise(Tick(s, ev).world, Tick(s, ev).flight[id])
    {
      TickKeepsPromises(s, ev, id);
    }
    forall t
      ensures Balanced(Tick(s, ev), t)
    {
      TickBalances(s, ev, t);
    }
  }

  // A store no handler is working on, as the theorems find it.
  ghost predicate LawfulStart(w: World) {
    RowsLawful(w) && LogShape(w.logs) &&
    forall t :: Count(w.alerts, t, SOS) == Count(w.alerts, t, SOS_RESOLVED) + One(InSos(w, t))
  }

  lemma CleanPrefix(s: Sys, evs: seq<Event>, i: nat)
    requires CleanRun(s, evs) && i <= |evs|
    ensures CleanRun(s, evs[..i])
  {
    forall j | 0 <= j < i
      ensures CleanStep(Run(s, evs[..i][..j]), evs[..i][j])
    {
      assert evs[..i][..j] == evs[..j];
    }
  }

  lemma LastStepIsClean(s: Sys, evs: seq<Event>)
    requires CleanRun(s, evs) && evs != []
    ensures CleanRun(s, evs[..|evs| - 1])
    ensures CleanStep(Run(s, evs[..|evs| - 1]), evs[|evs| - 1])
  {
    CleanPrefix(s, evs, |evs| - 1);
  }

  // Every clean run keeps every per-trip invariant, whatever the other trips and the fleet do.
  lemma {:induction false} CleanRunsAreLawful(w: World, clock: nat, evs: seq<Event>)
    requires LawfulStart(w) && CleanRun(Quiet(w, clock), evs)
    ensures Lawful(Run(Quiet(w, clock), evs))
  {
    var s := Quiet(w, clock);
    if evs == [] {
      forall t
        ensures Balanced(s, t)
      {
        assert SosDue(s.flight, t) == {} && ResolveDue(s.flight, t) == {};
      }
    } else {
      LastStepIsClean(s, evs);
      CleanRunsAreLawful(w, clock, evs[..|evs| - 1]);
      TickIsLawful(Run(s, evs[..|evs| - 1]), evs[|evs| - 1]);
    }
  }

  function LogsOfTrip(logs: seq<PickupLog>, trip: Id): seq<PickupLog> {
    if logs == [] then [] else
      var last := logs[|logs| - 1];
      LogsOfTrip(logs[..|logs| - 1], trip) + if last.trip == trip then [last] else []
  }

  // What one step may do to a trip and its log.
  ghost predicate LegalStep(w: World, w': World, t: Id) {
    t in w.trips ==>
      t in w'.trips && LegalMove(w.trips[t].status, w'.trips[t].status) &&
      (w.trips[t].actualStart.Some? ==> w'.trips[t].actualStart == w.trips[t].actualStart) &&
      (w.trips[t].status == COMPLETED ==> w'.trips[t] == w.trips[t]) &&
      (w.trips[t].status != IN_PROGRESS ==> LogsOfTrip(w'.logs, t) == LogsOfTrip(w.logs, t))
  }

  lemma LogAdded(logs: seq<PickupLog>, logs': seq<PickupLog>, log: PickupLog, t: Id)
    requires logs' == logs + [log]
    ensures log.trip != t ==> LogsOfTrip(logs', t) == LogsOfTrip(logs, t)
  {
    assert logs'[..|logs'| - 1] == logs;
  }

  lemma CallIsLegal(w: World, th: Thread, now: nat, newId: Id, t: Id)
    requires th.Running() && RowsLawful(w) && LogShape(w.logs) && Promise(w, th)
    ensures LegalStep(w, Call(w, th, now, newId).world, t)
  {
    hide Call, Length, Promise, RowsLawful, LogShape, LegalMove;
    CallKeepsRows(w, th, now, newId);
    CallKeepsLogShape(w, th, now, newId);
    var logs' := Call(w, th, now, newId).world.logs;
    if logs' != w.logs {
      LogAdded(w.logs, logs', LogOf(th.req, now), t);
    }
  }

  lemma SameRowsLegal(w: World, w': World, t: Id)
    requires w'.trips == w.trips && w'.logs == w.logs
    ensures LegalStep(w, w', t)
  {
  }

  lemma TickIsLegal(s: Sys, ev: Event, t: Id)
    requires Lawful(s)
    ensures LegalStep(s.world, Tick(s, ev).world, t)
  {
    hide Call, Length, Promise, RowsLawful, LogShape, LegalStep, Balanced;
    if Calls(s, ev) {
      CallIsLegal(s.world, s.flight[ev.id], s.clock + ev.elapsed, ev.newId, t);
    } else {
      IdleChangesLittle(s, ev);
      SameRowsLegal(s.world, Tick(s, ev).world, t);
    }
  }

  // In a clean run statuses move only along the automaton, a start time is never overwritten, and
  // logs are only added while the trip is in progress.
  lemma EveryStepIsLegal(w: World, clock: nat, evs: seq<Event>, i: nat, t: Id)
    requires LawfulStart(w) && CleanRun(Quiet(w, clock), evs) && i < |evs|
    ensures LegalStep(Run(Quiet(w, clock), evs[..i]).world, Run(Quiet(w, clock), evs[..i + 1]).world, t)
  {
    CleanPrefix(Quiet(w, clock), evs, i);
    CleanRunsAreLawful(w, clock, evs[..i]);
    TickIsLegal(Run(Quiet(w, clock), evs[..i]), evs[i], t);
    assert evs[..i + 1][..i] == evs[..i];
  }

  // Once a trip is completed its row and its attendance log never change again.
  lemma {:induction false} CompletedTripIsFrozen(w: World, clock: nat, evs: seq<Event>, i: nat, t: Id)
    requires LawfulStart(w) && CleanRun(Quiet(w, clock), evs) && i <= |evs|
    requires var earlier := Run(Quiet(w, clock), evs[..i]).world;
             t in earlier.trips && earlier.trips[t].status == COMPLETED
    ensures var earlier, now := Run(Quiet(w, clock), evs[..i]).world, Run(Quiet(w, clock), evs).world;
            t in now.trips && now.trips[t] == earlier.trips[t] &&
            LogsOfTrip(now.logs, t) == LogsOfTrip(earlier.logs, t)
  {
    if i == |evs| {
      assert evs[..i] == evs;
    } else {
      var before := evs[..|evs| - 1];
      assert before[..i] == evs[..i];
      LastStepIsClean(Quiet(w, clock), evs);
      CompletedTripIsFrozen(w, clock, before, i, t);
      CleanRunsAreLawful(w, clock, before);
      TickIsLegal(Run(Quiet(w, clock), before), evs[|evs| - 1], t);
    }
  }

  ghost predicate Settled(s: Sys, t: Id) {
    forall id | id in s.flight :: !OwesSos(s.flight[id], t) && !OwesResolve(s.flight[id], t)
  }

  lemma SettledTripBalances(s: Sys, t: Id)
    requires Lawful(s) && Settled(s, t)
    ensures Count(s.world.alerts, t, SOS) == Count(s.world.alerts, t, SOS_RESOLVED) + One(InSos(s.world, t))
  {
    assert Balanced(s, t);
    assert SosDue(s.flight, t) == {} && ResolveDue(s.flight, t) == {};
  }

  // The alert table agrees with the status of every trip for which no SOS handler still owes an alert.
  lemma AlertsTellTheStatus(w: World, clock: nat, evs: seq<Event>, t: Id)
    requires LawfulStart(w) && CleanRun(Quiet(w, clock), evs)
    requires Settled(Run(Quiet(w, clock), evs), t)
    ensures var w' := Run(Quiet(w, clock), evs).world;
            Count(w'.alerts, t, SOS) == Count(w'.alerts, t, SOS_RESOLVED) + One(InSos(w', t))
  {
    hide Settled, Balanced;
    CleanRunsAreLawful(w, clock, evs);
    SettledTripBalances(Run(Quiet(w, clock), evs), t);
  }

  // At most one request per trip at a time.
  ghost predicate Exclusive(s: Sys) {
    forall a, b | a in s.flight && b in s.flight && a != b && NamesTrip(s.flight[a].req) && NamesTrip(s.flight[b].req) ::
      s.flight[a].req.trip != s.flight[b].req.trip
  }

  lemma ExclusiveRunsAreClean(s: Sys, evs: seq<Event>)
    requires forall i | 0 <= i < |evs| :: Exclusive(Run(s, evs[..i]))
    ensures CleanRun(s, evs)
  {
    forall i | 0 <= i < |evs|
      ensures CleanStep(Run(s, evs[..i]), evs[i])
    {
      assert Exclusive(Run(s, evs[..i]));
    }
  }

  // ---- a trip under way that was never started ----

  // The trip has left NOT_STARTED without a start time: an SOS took it, and resolving that resumed it.
  predicate Skipped(w: World, t: Id) {
    t in w.trips && w.trips[t].status != NOT_STARTED && w.trips[t].actualStart.None?
  }

  lemma CallKeepsSkipped(w: World, th: Thread, now: nat, newId: Id, t: Id)
    requires th.Running() && RowsLawful(w) && Promise(w, th) && Skipped(w, t)
    ensures Skipped(Call(w, th, now, newId).world, t)
  {
    hide Call, Length, Boarded, RowsLawful;
    CallKeepsRows(w, th, now, newId);
    if NamesTrip(th.req) {
      TripsEffect(w, th, now, newId);
    } else if th.req.CreateTrip? {
      CreationEffect(w, th, now, newId);
    } else {
      Elsewhere(w, th, now, newId);
    }
  }

  lemma TickKeepsSkipped(s: Sys, ev: Event, t: Id)
    requires Lawful(s) && Skipped(s.world, t)
    ensures Skipped(Tick(s, ev).world, t)
  {
    hide Call, Promise, RowsLawful, LogShape, Balanced;
    if Calls(s, ev) {
      CallKeepsSkipped(s.world, s.flight[ev.id], s.clock + ev.elapsed, ev.newId, t);
    } else {
      IdleChangesLittle(s, ev);
    }
  }

  // Over every clean run such a trip never gets a start time any more, and is completed without one.
  lemma {:induction false} SkippedStartIsNeverMadeUp(w: World, clock: nat, evs: seq<Event>, i: nat, t: Id)
    requires LawfulStart(w) && CleanRun(Quiet(w, clock), evs) && i <= |evs|
    requires Skipped(Run(Quiet(w, clock), evs[..i]).world, t)
    ensures Skipped(Run(Quiet(w, clock), evs).world, t)
  {
    hide Tick, Lawful, Skipped;
    if i == |evs| {
      assert evs[..i] == evs;
    } else {
      var n := |evs| - 1;
      assert evs[..n][..i] == evs[..i];
      LastStepIsClean(Quiet(w, clock), evs);
      SkippedStartIsNeverMadeUp(w, clock, evs[..n], i, t);
      CleanRunsAreLawful(w, clock, evs[..n]);
      TickKeepsSkipped(Run(Quiet(w, clock), evs[..n]), evs[n], t);
    }
  }
}
