// The svt:trip:{id}:active keys: a trip under way has one for 24 hours after its creation, a trip ended
// by endTrip has none, and a trip completed by resolveSOS keeps the one it had.
module ActiveTrips {
  import opened Options
  import opened Schema
  import opened Handlers
  import opened Effects
  import opened Frames
  import opened Machine
  import opened Lifecycle

  // The trip row exists but its creator has not set its key yet.
  predicate Creates(th: Thread, t: Id) {
    th.req.CreateTrip? && th.k == 3 && th.locals.made == Some(t)
  }

  ghost predicate Creating(s: Sys, t: Id) {
    exists id | id in s.flight :: Creates(s.flight[id], t)
  }

  predicate Keyed(w: World, t: Id)
    requires t in w.trips
  {
    t in w.active && w.active[t].van == w.trips[t].van && w.trips[t].createdAt + ACTIVE_TRIP_TTL <= w.active[t].expires
  }

  ghost predicate KeyLaw(s: Sys) {
    (forall t | t in s.world.trips && s.world.trips[t].status != COMPLETED :: Keyed(s.world, t) || Creating(s, t)) &&
    (forall id, t | id in s.flight && Creates(s.flight[id], t) ::
       t in s.world.trips && s.world.trips[t].createdAt <= s.clock && s.world.trips[t].van == s.flight[id].req.van) &&
    (forall id | id in s.flight && s.flight[id].req.CreateTrip? && s.flight[id].k >= 1 ::
       s.flight[id].locals.van == s.flight[id].req.van)
  }

  lemma ActiveEffect(w: World, th: Thread, now: nat, newId: Id)
    requires th.Running()
    ensures var a' := Call(w, th, now, newId).world.active;
            if th.req.EndTrip? && th.k == 4 then a' == w.active - {th.req.trip}
            else if th.req.CreateTrip? && th.k == 3 && th.locals.made.Some?
            then a' == w.active[th.locals.made.value := ActiveKey(th.locals.van, th.req.school, now + ACTIVE_TRIP_TTL)]
            else a' == w.active
  {
    if NamesTrip(th.req) {
      TripKeepsActive(w, th, now, newId);
    } else if th.req.CreateTrip? {
      CreationEffect(w, th, now, newId);
    } else {
      Elsewhere(w, th, now, newId);
      hide Call;
    }
  }

  lemma TripKeepsActive(w: World, th: Thread, now: nat, newId: Id)
    requires th.Running() && NamesTrip(th.req)
    ensures var a' := Call(w, th, now, newId).world.active;
            a' == if th.req.EndTrip? && th.k == 4 then w.active - {th.req.trip} else w.active
  {
    TripFrame(w, TripProgram(th.req)[th.k], th.locals, th.req.school, now, newId);
    if !(th.req.EndTrip? && th.k == 4) {
      hide ExecTrip;
    }
  }

  lemma CreationLocals(w: World, th: Thread, now: nat, newId: Id)
    requires th.Running() && th.req.CreateTrip?
    requires th.k >= 1 ==> th.locals.van == th.req.van
    ensures var r := Call(w, th, now, newId); r.Next? ==> r.locals.van == th.req.van
  {
  }

  // A row keeps its van and its creation time; a new row is the creator's.
  lemma RowsKeepIdentity(w: World, th: Thread, now: nat, newId: Id)
    requires th.Running()
    ensures var r := Call(w, th, now, newId);
            (forall t | t in w.trips :: t in r.world.trips &&
               r.world.trips[t].van == w.trips[t].van && r.world.trips[t].createdAt == w.trips[t].createdAt) &&
            (forall t | t in r.world.trips && t !in w.trips ::
               th.req.CreateTrip? && th.k == 2 && r.Next? && Creates(Later(th, r), t)) &&
            (forall t | r.Next? && Creates(Later(th, r), t) && th.k == 2 :: t !in w.trips && t in r.world.trips &&
               r.world.trips[t].van == th.req.van && r.world.trips[t].createdAt == now)
  {
    if NamesTrip(th.req) {
      TripsEffect(w, th, now, newId);
    } else if th.req.CreateTrip? {
      CreationEffect(w, th, now, newId);
    } else {
      Elsewhere(w, th, now, newId);
    }
    hide Call;
  }

  // A keyed trip that is still not completed keeps its key; its creator's last call gives it one.
  lemma CallKeepsKey(w: World, th: Thread, now: nat, newId: Id, t: Id)
    requires th.Running() && RowsLawful(w) && Promise(w, th) && t in w.trips && (Keyed(w, t) || Creates(th, t))
    requires Creates(th, t) ==> th.locals.van == w.trips[t].van && w.trips[t].createdAt <= now
    ensures var w' := Call(w, th, now, newId).world;
            t in w'.trips && (w'.trips[t].status != COMPLETED ==> Keyed(w', t))
  {
    hide Call, Length, Boarded, RowsLawful;
    CallKeepsRows(w, th, now, newId);
    RowsKeepIdentity(w, th, now, newId);
    ActiveEffect(w, th, now, newId);
  }

  lemma OtherCreatorsStay(s: Sys, ev: Event, id: Id, t: Id)
    requires Calls(s, ev) && id in s.flight && id != ev.id && Creates(s.flight[id], t)
    ensures Creating(Tick(s, ev), t)
  {
    hide Call, Length;
    assert Creates(Tick(s, ev).flight[id], t);
  }

  lemma NewTripsAreBeingCreated(s: Sys, ev: Event, t: Id)
    requires Calls(s, ev) && t in Tick(s, ev).world.trips && t !in s.world.trips
    ensures Creating(Tick(s, ev), t)
  {
    hide Call, Length;
    var th := s.flight[ev.id];
    RowsKeepIdentity(s.world, th, s.clock + ev.elapsed, ev.newId);
    CreationIsLong(th.req);
    assert Creates(Tick(s, ev).flight[ev.id], t);
  }

  lemma TickKeepsKey(s: Sys, ev: Event, t: Id)
    requires Lawful(s) && KeyLaw(s) && Calls(s, ev)
    requires t in Tick(s, ev).world.trips && Tick(s, ev).world.trips[t].status != COMPLETED
    ensures Keyed(Tick(s, ev).world, t) || Creating(Tick(s, ev), t)
  {
    hide Call, Balanced, Length, LogShape, Promise, RowsLawful;
    var th, now := s.flight[ev.id], s.clock + ev.elapsed;
    if t !in s.world.trips {
      NewTripsAreBeingCreated(s, ev, t);
    } else {
      CallKeepsStatus(s, ev, t);
      assert Keyed(s.world, t) || Creating(s, t);
      if Keyed(s.world, t) || Creates(th, t) {
        CallKeepsKey(s.world, th, now, ev.newId, t);
      } else {
        var id :| id in s.flight && Creates(s.flight[id], t);
        OtherCreatorsStay(s, ev, id, t);
      }
    }
  }

  lemma CallKeepsStatus(s: Sys, ev: Event, t: Id)
    requires Lawful(s) && Calls(s, ev) && t in s.world.trips
    ensures t in Tick(s, ev).world.trips
    ensures s.world.trips[t].status == COMPLETED ==> Tick(s, ev).world.trips[t].status == COMPLETED
  {
    hide Call, Balanced, Length, LogShape;
    CallKeepsRows(s.world, s.flight[ev.id], s.clock + ev.elapsed, ev.newId);
  }

  lemma CreationIsLong(req: Request)
    ensures req.CreateTrip? ==> Length(req) == 4
  {
  }

  lemma TickKeepsCreators(s: Sys, ev: Event)
    requires KeyLaw(s) && Calls(s, ev)
    ensures var s' := Tick(s, ev);
            (forall id, t | id in s'.flight && Creates(s'.flight[id], t) ::
               t in s'.world.trips && s'.world.trips[t].createdAt <= s'.clock && s'.world.trips[t].van == s'.flight[id].req.van) &&
            (forall id | id in s'.flight && s'.flight[id].req.CreateTrip? && s'.flight[id].k >= 1 ::
               s'.flight[id].locals.van == s'.flight[id].req.van)
  {
    hide Call, Length;
    var th, now := s.flight[ev.id], s.clock + ev.elapsed;
    RowsKeepIdentity(s.world, th, now, ev.newId);
    if th.req.CreateTrip? {
      CreationLocals(s.world, th, now, ev.newId);
    }
  }

  // In a clean run every trip that is not completed has its key, live until 24 hours after the trip
  // was created at least, unless its creator is just about to set it.
  lemma {:induction false} UnfinishedTripsAreKeyed(w: World, clock: nat, evs: seq<Event>)
    requires LawfulStart(w) && KeyLaw(Quiet(w, clock)) && CleanRun(Quiet(w, clock), evs)
    ensures KeyLaw(Run(Quiet(w, clock), evs))
  {
    hide Tick;
    if evs != [] {
      var before, ev := evs[..|evs| - 1], evs[|evs| - 1];
      LastStepIsClean(Quiet(w, clock), evs);
      UnfinishedTripsAreKeyed(w, clock, before);
      CleanRunsAreLawful(w, clock, before);
      TickKeepsKeys(Run(Quiet(w, clock), before), ev);
    }
  }

  lemma TickKeepsKeys(s: Sys, ev: Event)
    requires Lawful(s) && KeyLaw(s)
    ensures KeyLaw(Tick(s, ev))
  {
    hide Call, Lawful;
    if Calls(s, ev) {
      hide Tick;
      TickKeepsCreators(s, ev);
      forall t | t in Tick(s, ev).world.trips && Tick(s, ev).world.trips[t].status != COMPLETED
        ensures Keyed(Tick(s, ev).world, t) || Creating(Tick(s, ev), t)
      {
        TickKeepsKey(s, ev, t);
      }
    } else {
      IdleKeepsKeys(s, ev);
    }
  }

  lemma IdleKeepsKeys(s: Sys, ev: Event)
    requires KeyLaw(s) && !Calls(s, ev)
    ensures KeyLaw(Tick(s, ev))
  {
    var s' := Tick(s, ev);
    forall t | t in s.world.trips && Creating(s, t)
      ensures Creating(s', t)
    {
      var id :| id in s.flight && Creates(s.flight[id], t);
      assert Creates(s'.flight[id], t);
    }
  }

  // The key of a trip nobody is creating is gone.
  ghost predicate Unkeyed(s: Sys, t: Id) {
    t in s.world.trips && t !in s.world.active && !Creating(s, t)
  }

  lemma TickStaysUnkeyed(s: Sys, ev: Event, t: Id)
    requires Unkeyed(s, t)
    ensures Unkeyed(Tick(s, ev), t)
  {
    hide Call, Length;
    if Calls(s, ev) {
      var th, now := s.flight[ev.id], s.clock + ev.elapsed;
      RowsKeepIdentity(s.world, th, now, ev.newId);
      ActiveEffect(s.world, th, now, ev.newId);
    }
  }

  // Once endTrip has removed the key of a trip, it never comes back, whatever interleaves.
  lemma {:induction false} EndedTripStaysUnkeyed(s: Sys, evs: seq<Event>, t: Id)
    requires Unkeyed(s, t)
    ensures Unkeyed(Run(s, evs), t)
  {
    if evs != [] {
      EndedTripStaysUnkeyed(s, evs[..|evs| - 1], t);
      TickStaysUnkeyed(Run(s, evs[..|evs| - 1]), evs[|evs| - 1], t);
    }
  }

  // The creator's last call sets the key, whatever happened to the trip meanwhile.
  lemma CreatorSetsKey(s: Sys, id: Id, t: Id)
    requires id in s.flight && Creates(s.flight[id], t)
    ensures t in Run(s, [Advance(id, 0, 0)]).world.active
  {
    var ev := Advance(id, 0, 0);
    assert [ev][..0] == [] && Run(s, [ev]) == Tick(s, ev);
    hide Call, Length;
    CreationIsLong(s.flight[id].req);
    ActiveEffect(s.world, s.flight[id], s.clock, 0);
  }

  // A trip without key stays without one, over every continuation, if and only if its creator is not
  // still to set it.
  lemma StaysUnkeyedIff(s: Sys, t: Id)
    requires t in s.world.trips && t !in s.world.active
    ensures (forall evs: seq<Event> :: t !in Run(s, evs).world.active) <==> !Creating(s, t)
  {
    if Creating(s, t) {
      var id :| id in s.flight && Creates(s.flight[id], t);
      CreatorSetsKey(s, id, t);
      assert t in Run(s, [Advance(id, 0, 0)]).world.active;
    } else {
      forall evs: seq<Event> ensures t !in Run(s, evs).world.active {
        EndedTripStaysUnkeyed(s, evs, t);
      }
    }
  }

  // endTrip's last call leaves the trip without key, and for good exactly when no creator of the trip is
  // still to set it: a create that is slower than start and end keys the ended trip again.
  lemma EndTripRemovesKey(s: Sys, ev: Event)
    requires Calls(s, ev) && s.flight[ev.id].req.EndTrip? && s.flight[ev.id].k == 4
    requires s.flight[ev.id].req.trip in s.world.trips
    ensures var s', t := Tick(s, ev), s.flight[ev.id].req.trip;
            t !in s'.world.active &&
            ((forall evs: seq<Event> :: t !in Run(s', evs).world.active) <==> !Creating(s, t))
  {
    hide Call, Run;
    var t := s.flight[ev.id].req.trip;
    RowsKeepIdentity(s.world, s.flight[ev.id], s.clock + ev.elapsed, ev.newId);
    ActiveEffect(s.world, s.flight[ev.id], s.clock + ev.elapsed, ev.newId);
    StaysUnkeyedIff(Tick(s, ev), t);
    CreatorsStay(s, ev, t);
  }

  lemma CreatorsStay(s: Sys, ev: Event, t: Id)
    requires Calls(s, ev) && s.flight[ev.id].req.EndTrip? && t in s.world.trips
    ensures Creating(Tick(s, ev), t) <==> Creating(s, t)
  {
    hide Call, Length;
    if Creating(s, t) {
      var id :| id in s.flight && Creates(s.flight[id], t);
      assert Creates(Tick(s, ev).flight[id], t);
    }
  }

  // resolveSOS without continuing completes the trip and leaves the key where it was.
  lemma ResolvedTripKeepsItsKey(w: World, req: Request, now: nat)
    requires req.ResolveSOS? && !req.willContinue && Serve(w, req, now, 0).1.TripRow?
    ensures var w' := Serve(w, req, now, 0).0;
            req.trip in w'.trips && w'.trips[req.trip].status == COMPLETED && w'.active == w.active
  {
    var th := Opened(req);
    var r := Call(w, th, now, 0);
    if r.Next? {
      var th1, w1 := Later(th, r), r.world;
      assert Serve(w, req, now, 0) == Drive(w1, th1, now, 0);
      r := Call(w1, th1, now, 0);
      var th2, w2 := Later(th1, r), r.world;
      assert Drive(w1, th1, now, 0) == Drive(w2, th2, now, 0);
      r := Call(w2, th2, now, 0);
      assert Drive(w2, th2, now, 0) == Drive(r.world, Later(th2, r), now, 0);
    }
  }
}
