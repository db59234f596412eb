// drivers.remove soft-deletes a driver and then takes it off its vans, while van handlers check a driver
// and write it later. What that leaves behind, whatever else is in flight.
module DriverRemoval {
  import opened Options
  import opened Schema
  import opened Handlers
  import opened Frames
  import opened Machine
  import opened Isolation
  import opened Fleet
  import opened Overlap
  import opened Sets
  import opened Text

  // The handler has settled on the driver and will write it: after its check of the driver, or, for an
  // update that names none, after it has read the van's own.
  predicate Holds(th: Thread, d: Id) {
    match th.req
    case CreateVan(_, _, driver) => driver == Some(d) && th.k >= 2
    case UpdateVan(_, _, _, driver, _) =>
      if driver.Some? then driver == Some(d) && th.k >= 3 else th.locals.driver == Some(d) && th.k >= 1
    case AssignDriver(_, _, driver) => driver == d && th.k >= 2
    case _ => false
  }

  // The driver is deleted and its vans are about to be cleared.
  predicate Clearing(th: Thread, d: Id) {
    th.req.RemoveDriver? && th.req.driver == d && th.k == 2
  }

  predicate BeingCleared(s: Sys, d: Id) {
    exists id <- s.flight :: Clearing(s.flight[id], d)
  }

  predicate Covered(s: Sys, d: Id) {
    d in s.world.users && (s.world.users[d].deleted ==> BeingCleared(s, d))
  }

  // Every driver a van points at, or a handler will write, is there, or is just being cleared off its vans.
  ghost predicate DriversCovered(s: Sys) {
    && (forall v <- s.world.vans | s.world.vans[v].driver.Some? :: Covered(s, s.world.vans[v].driver.value))
    && (forall id, d: Id | id in s.flight && Holds(s.flight[id], d) :: Covered(s, d))
  }

  // No removal clears a driver off its vans while a van handler holds that driver.
  ghost predicate Careful(s: Sys, ev: Event) {
    Calls(s, ev) ==> forall d: Id, id | Clearing(s.flight[ev.id], d) && id in s.flight :: !Holds(s.flight[id], d)
  }

  ghost predicate CarefulRun(s: Sys, evs: seq<Event>) {
    forall i | 0 <= i < |evs| :: Careful(Run(s, evs[..i]), evs[i])
  }

  // ---- What one call does to users, to the drivers of vans, and to what its handler holds ----

  lemma PersonOpOnUsers(w: World, op: PersonOp, l: Locals, school: Id, newId: Id, d: Id)
    ensures var w' := ExecPerson(w, op, l, school, newId).world;
            (d in w.users ==> d in w'.users && (w.users[d].deleted ==> w'.users[d].deleted)) &&
            (d in w.users && op != RetireDriver(d) ==> w'.users[d].deleted == w.users[d].deleted) &&
            w'.vans == if op.UnassignEverywhere? then WithoutDriver(w.vans, school, op.driver) else w.vans
  {
  }

  lemma RemovalOps(req: Request, k: nat)
    requires !OfTrips(req) && !OfVans(req) && k < Length(req)
    ensures var op := PersonProgram(req)[k];
            (op.RetireDriver? ==> req.RemoveDriver? && k == 1 && op == RetireDriver(req.driver)) &&
            (op.UnassignEverywhere? <==> req.RemoveDriver? && k == 2) &&
            (op.UnassignEverywhere? ==> op == UnassignEverywhere(req.driver))
  {
  }

  lemma PersonCallOnUsers(w: World, th: Thread, newId: Id, d: Id)
    requires th.Running() && !OfTrips(th.req) && !OfVans(th.req)
    ensures var w' := ExecPerson(w, PersonProgram(th.req)[th.k], th.locals, th.req.school, newId).world;
            (d in w.users ==> d in w'.users && (w.users[d].deleted ==> w'.users[d].deleted)) &&
            (d in w.users && !(th.req.RemoveDriver? && th.req.driver == d && th.k == 1) ==>
               w'.users[d].deleted == w.users[d].deleted) &&
            (if th.req.RemoveDriver? && th.k == 2 then w'.vans == WithoutDriver(w.vans, th.req.school, th.req.driver)
             else w'.vans == w.vans)
  {
    hide PersonProgram, ExecPerson;
    RemovalOps(th.req, th.k);
    PersonOpOnUsers(w, PersonProgram(th.req)[th.k], th.locals, th.req.school, newId, d);
  }

  lemma CallOnUsers(w: World, th: Thread, now: nat, newId: Id, d: Id)
    requires th.Running()
    ensures var w' := Call(w, th, now, newId).world;
            (d in w.users ==> d in w'.users && (w.users[d].deleted ==> w'.users[d].deleted)) &&
            (d in w.users && !(th.req.RemoveDriver? && th.req.driver == d && th.k == 1) ==>
               w'.users[d].deleted == w.users[d].deleted)
  {
    if OfTrips(th.req) {
      TripFrame(w, TripProgram(th.req)[th.k], th.locals, th.req.school, now, newId);
      hide ExecTrip;
    } else if OfVans(th.req) {
      VanFrame(w, VanProgram(th.req)[th.k], th.locals, th.req.school, newId);
      hide ExecVan;
    } else {
      PersonCallOnUsers(w, th, newId, d);
      hide ExecPerson;
    }
  }

  // The operation writes this driver into a van.
  predicate WritesDriver(op: VanOp, l: Locals, d: Id) {
    match op
    case InsertVan(_, driver) => driver == Some(d)
    case WriteVan(_, _, driver, _) => if driver.Some? then driver == Some(d) else l.driver == Some(d)
    case WriteVanDriver(_, driver) => driver == Some(d)
    case _ => false
  }

  lemma VanOpOnDrivers(w: World, op: VanOp, l: Locals, school: Id, newId: Id, v: Id)
    ensures var w' := ExecVan(w, op, l, school, newId).world;
            v in w'.vans && w'.vans[v].driver.Some? ==>
              (v in w.vans && w.vans[v].driver == w'.vans[v].driver) || WritesDriver(op, l, w'.vans[v].driver.value)
  {
  }

  lemma WritersHold(th: Thread, d: Id)
    requires th.Running() && OfVans(th.req)
    ensures WritesDriver(VanProgram(th.req)[th.k], th.locals, d) ==> Holds(th, d)
  {
  }

  lemma VanCallOnDrivers(w: World, th: Thread, newId: Id, v: Id)
    requires th.Running() && OfVans(th.req)
    ensures var w' := ExecVan(w, VanProgram(th.req)[th.k], th.locals, th.req.school, newId).world;
            v in w'.vans && w'.vans[v].driver.Some? ==>
              (v in w.vans && w.vans[v].driver == w'.vans[v].driver) || Holds(th, w'.vans[v].driver.value)
  {
    hide ExecVan, VanProgram, WritesDriver, Holds;
    VanOpOnDrivers(w, VanProgram(th.req)[th.k], th.locals, th.req.school, newId, v);
    var w' := ExecVan(w, VanProgram(th.req)[th.k], th.locals, th.req.school, newId).world;
    if v in w'.vans && w'.vans[v].driver.Some? {
      WritersHold(th, w'.vans[v].driver.value);
    }
  }

  // A van's driver after a call was its driver before, or the handler held it; clearing takes it off.
  lemma CallOnDrivers(w: World, th: Thread, now: nat, newId: Id, v: Id)
    requires th.Running()
    ensures var w' := Call(w, th, now, newId).world;
            v in w'.vans && w'.vans[v].driver.Some? ==>
              var d := w'.vans[v].driver.value;
              (v in w.vans && w.vans[v].driver == Some(d) && !(Clearing(th, d) && w.vans[v].school == th.req.school)) || Holds(th, d)
  {
    if OfTrips(th.req) {
      TripFrame(w, TripProgram(th.req)[th.k], th.locals, th.req.school, now, newId);
      hide ExecTrip;
    } else if OfVans(th.req) {
      VanCallOnDrivers(w, th, newId, v);
      hide ExecVan;
    } else {
      PersonCallOnUsers(w, th, newId, 0);
      hide ExecPerson;
    }
  }

  // A handler comes to hold a driver by checking it or by reading it off a van, and writes nothing then.
  lemma CallOnHolding(w: World, th: Thread, now: nat, newId: Id, d: Id)
    requires th.Running()
    ensures var r := Call(w, th, now, newId);
            r.Next? && Holds(Later(th, r), d) ==>
              Holds(th, d) ||
              (r.world == w &&
               ((d in w.users && !w.users[d].deleted) || exists v <- w.vans :: w.vans[v].driver == Some(d)))
  {
    if !OfVans(th.req) {
      hide Call;
    }
  }

  // ---- The invariant ----

  lemma ClearingIsRunning(th: Thread, d: Id)
    requires th.req.RemoveDriver?
    ensures Length(th.req) == 3
  {
  }

  lemma CoverStays(s: Sys, ev: Event, d: Id)
    requires Covered(s, d) && Calls(s, ev) && !Clearing(s.flight[ev.id], d)
    ensures Covered(Tick(s, ev), d)
  {
    hide Call, Length;
    var th, now := s.flight[ev.id], s.clock + ev.elapsed;
    CallOnUsers(s.world, th, now, ev.newId, d);
    if th.req.RemoveDriver? && th.req.driver == d && th.k == 1 {
      ClearingIsRunning(th, d);
      RetirementGoesOn(s.world, th, now, ev.newId);
      assert Clearing(Tick(s, ev).flight[ev.id], d);
    } else if s.world.users[d].deleted {
      var id :| id in s.flight && Clearing(s.flight[id], d);
      assert Clearing(Tick(s, ev).flight[id], d);
    }
  }

  lemma RetirementGoesOn(w: World, th: Thread, now: nat, newId: Id)
    requires th.Running() && th.req.RemoveDriver? && th.k == 1 && th.req.driver in w.users
    ensures Call(w, th, now, newId).Next?
  {
  }

  // The call that clears a driver off its vans leaves nobody with it.
  lemma ClearingClears(s: Sys, ev: Event, v: Id, d: Id)
    requires Sound(s) && Calls(s, ev) && Clearing(s.flight[ev.id], d)
    requires v in Tick(s, ev).world.vans
    ensures Tick(s, ev).world.vans[v].driver != Some(d)
  {
    hide Call, Length;
    var th := s.flight[ev.id];
    assert Learnt(s.world, th);
    CallOnDrivers(s.world, th, s.clock + ev.elapsed, ev.newId, v);
  }

  lemma VanStaysCovered(s: Sys, ev: Event, v: Id)
    requires Sound(s) && DriversCovered(s) && Calls(s, ev)
    requires v in Tick(s, ev).world.vans && Tick(s, ev).world.vans[v].driver.Some?
    ensures Covered(Tick(s, ev), Tick(s, ev).world.vans[v].driver.value)
  {
    hide Call, Length, Sound, Covered;
    var th, d := s.flight[ev.id], Tick(s, ev).world.vans[v].driver.value;
    if Clearing(th, d) {
      ClearingClears(s, ev, v, d);
    } else {
      CallOnDrivers(s.world, th, s.clock + ev.elapsed, ev.newId, v);
      assert Covered(s, d);
      CoverStays(s, ev, d);
    }
  }

  lemma HolderStaysCovered(s: Sys, ev: Event, id: Id, d: Id)
    requires Sound(s) && DriversCovered(s) && Calls(s, ev) && Careful(s, ev)
    requires id in Tick(s, ev).flight && Holds(Tick(s, ev).flight[id], d)
    ensures Covered(Tick(s, ev), d)
  {
    hide Call, Length, Sound;
    var th, now := s.flight[ev.id], s.clock + ev.elapsed;
    if id == ev.id {
      CallOnHolding(s.world, th, now, ev.newId, d);
      var r := Call(s.world, th, now, ev.newId);
      assert Tick(s, ev).flight[id] == Later(th, r);
      assert Covered(s, d);
    } else {
      assert Covered(s, d);
      assert !Clearing(th, d);
    }
    CoverStays(s, ev, d);
  }

  lemma TickStaysCovered(s: Sys, ev: Event)
    requires Sound(s) && DriversCovered(s) && Careful(s, ev)
    ensures DriversCovered(Tick(s, ev))
  {
    hide Call, Covered, Sound, Length;
    if Calls(s, ev) {
      var s' := Tick(s, ev);
      forall v <- s'.world.vans | s'.world.vans[v].driver.Some? ensures Covered(s', s'.world.vans[v].driver.value) {
        VanStaysCovered(s, ev, v);
      }
      forall id, d: Id | id in s'.flight && Holds(s'.flight[id], d) ensures Covered(s', d) {
        HolderStaysCovered(s, ev, id, d);
      }
    } else {
      IdleStaysCovered(s, ev);
    }
  }

  lemma IdleStaysCovered(s: Sys, ev: Event)
    requires DriversCovered(s) && !Calls(s, ev)
    ensures DriversCovered(Tick(s, ev))
  {
    var s' := Tick(s, ev);
    forall d: Id | Covered(s, d) ensures Covered(s', d) {
      if s.world.users[d].deleted {
        var id :| id in s.flight && Clearing(s.flight[id], d);
        assert Clearing(s'.flight[id], d);
      }
    }
  }

  lemma {:induction false} CarefulRunsStayCovered(w: World, clock: nat, evs: seq<Event>)
    requires Closed(w) && DriversPresent(w) && CarefulRun(Quiet(w, clock), evs)
    ensures Sound(Run(Quiet(w, clock), evs)) && DriversCovered(Run(Quiet(w, clock), evs))
  {
    if evs != [] {
      hide Tick, Careful, Sound, DriversCovered;
      var n, s := |evs| - 1, Quiet(w, clock);
      assert forall i | 0 <= i <= n :: evs[..n][..i] == evs[..i];
      CarefulRunsStayCovered(w, clock, evs[..n]);
      TickIsSound(Run(s, evs[..n]), evs[n]);
      TickStaysCovered(Run(s, evs[..n]), evs[n]);
    }
  }

  // However the four services interleave, as long as no van handler holds a driver at the moment the
  // driver is cleared off its vans, a van only ever points at a deleted driver between the two writes of
  // its removal, and once nothing is in flight never.
  lemma DeletedDriversLeaveTheirVans(w: World, clock: nat, evs: seq<Event>)
    requires Closed(w) && DriversPresent(w) && CarefulRun(Quiet(w, clock), evs)
    ensures var s := Run(Quiet(w, clock), evs);
            (forall v <- s.world.vans | s.world.vans[v].driver.Some? ::
               var d := s.world.vans[v].driver.value;
               d in s.world.users && (s.world.users[d].deleted ==> BeingCleared(s, d))) &&
            (s.flight == map[] ==> DriversPresent(s.world))
  {
    hide Run, CarefulRun;
    CarefulRunsStayCovered(w, clock, evs);
  }

  // ---- After the clearing write: exactly when the driver stays off every van ----

  predicate OffVans(w: World, d: Id) {
    forall v <- w.vans :: w.vans[v].driver != Some(d)
  }

  // The driver is deleted and no van points at it.
  predicate Gone(w: World, d: Id) {
    d in w.users && w.users[d].deleted && OffVans(w, d)
  }

  predicate NoHolder(s: Sys, d: Id) {
    forall id <- s.flight | s.flight[id].Running() :: !Holds(s.flight[id], d)
  }

  lemma ClearingLeavesGone(s: Sys, ev: Event, d: Id)
    requires Sound(s) && Calls(s, ev) && Clearing(s.flight[ev.id], d) && s.world.users[d].deleted
    ensures Gone(Tick(s, ev).world, d)
    ensures NoHolder(Tick(s, ev), d) <==> NoHolder(s, d)
  {
    hide Call, Length;
    var s', th := Tick(s, ev), s.flight[ev.id];
    assert Learnt(s.world, th);
    CallOnUsers(s.world, th, s.clock + ev.elapsed, ev.newId, d);
    forall v <- s'.world.vans ensures s'.world.vans[v].driver != Some(d) {
      ClearingClears(s, ev, v, d);
    }
    ClearingIsRunning(th, d);
    forall id <- s.flight | id != ev.id ensures id in s'.flight && s'.flight[id] == s.flight[id] {
    }
  }

  lemma TickStaysGone(s: Sys, ev: Event, d: Id)
    requires Gone(s.world, d) && NoHolder(s, d)
    ensures Gone(Tick(s, ev).world, d) && NoHolder(Tick(s, ev), d)
  {
    hide Call, Length;
    if Calls(s, ev) {
      var th, now := s.flight[ev.id], s.clock + ev.elapsed;
      CallOnUsers(s.world, th, now, ev.newId, d);
      CallOnHolding(s.world, th, now, ev.newId, d);
      var w' := Tick(s, ev).world;
      forall v <- w'.vans ensures w'.vans[v].driver != Some(d) {
        CallOnDrivers(s.world, th, now, ev.newId, v);
      }
    } else {
      IdleChangesLittle(s, ev);
    }
  }

  lemma {:induction false} RunStaysGone(s: Sys, evs: seq<Event>, d: Id)
    requires Gone(s.world, d) && NoHolder(s, d)
    ensures Gone(Run(s, evs).world, d) && NoHolder(Run(s, evs), d)
  {
    hide Tick, Gone, NoHolder;
    if evs != [] {
      RunStaysGone(s, evs[..|evs| - 1], d);
      TickStaysGone(Run(s, evs[..|evs| - 1]), evs[|evs| - 1], d);
    }
  }

  // The plate the handler is going to write is not refused.
  predicate PlateFits(w: World, th: Thread) {
    match th.req
    case CreateVan(_, plate, _) => !PlateTaken(w, Upper(plate), None)
    case UpdateVan(_, v, plate, _, _) => plate.Some? ==> !PlateTaken(w, Upper(plate.value), Some(v))
    case _ => true
  }

  // Nothing stops a holder of a driver that is on no van: it makes its remaining calls and writes it.
  lemma HolderGoesOn(w: World, th: Thread, now: nat, newId: Id, d: Id)
    requires th.Running() && Holds(th, d) && PlateFits(w, th) && Learnt(w, th) && OffVans(w, d) && newId !in w.vans
    ensures var r := Call(w, th, now, newId);
            r.Next? &&
            (if th.k + 1 == Length(th.req) then !OffVans(r.world, d)
             else r.world == w && Holds(Later(th, r), d))
  {
    var v := if th.req.CreateVan? then newId else th.req.van;
    var r := Call(w, th, now, newId);
    if th.req.UpdateVan? && th.req.newPlate.Some? {
      TakenInSchoolIsTaken(w, th.req.school, Upper(th.req.newPlate.value), Some(th.req.van));
    }
    hide Upper, PlateTaken, PlateTakenInSchool;
    if th.k + 1 == Length(th.req) {
      assert r.Next? && v in r.world.vans && r.world.vans[v].driver == Some(d);
    }
  }

  lemma HolderTicks(s: Sys, id: Id, newId: Id, d: Id)
    requires id in s.flight && s.flight[id].Running() && Sound(s)
    requires Holds(s.flight[id], d) && PlateFits(s.world, s.flight[id]) && OffVans(s.world, d) && newId !in s.world.vans
    ensures var s', th := Tick(s, Advance(id, 0, newId)), s.flight[id];
            if th.k + 1 == Length(th.req) then !OffVans(s'.world, d)
            else s'.world == s.world && id in s'.flight && Holds(s'.flight[id], d) &&
                 s'.flight[id].req == th.req && s'.flight[id].k == th.k + 1
  {
    hide Call, Length, Closed, PlateFits, OffVans;
    assert Learnt(s.world, s.flight[id]);
    HolderGoesOn(s.world, s.flight[id], s.clock, newId, d);
  }

  lemma {:induction false} HolderWrites(s: Sys, id: Id, newId: Id, d: Id) returns (evs: seq<Event>)
    requires id in s.flight && s.flight[id].Running() && Sound(s)
    requires Holds(s.flight[id], d) && PlateFits(s.world, s.flight[id]) && OffVans(s.world, d) && newId !in s.world.vans
    ensures !OffVans(Run(s, evs).world, d)
    decreases Length(s.flight[id].req) - s.flight[id].k
  {
    hide Tick, OffVans, Sound, Holds, PlateTaken, Length;
    var ev := Advance(id, 0, newId);
    var s' := Tick(s, ev);
    HolderTicks(s, id, newId, d);
    TickIsSound(s, ev);
    assert [ev] == [] + [ev];
    RunOn(s, [], ev);
    if s.flight[id].k + 1 == Length(s.flight[id].req) {
      evs := [ev];
    } else {
      var rest := HolderWrites(s', id, newId, d);
      RunJoins(s, [ev], rest);
      evs := [ev] + rest;
    }
  }

  ghost function FreshVan(w: World): (id: Id)
    ensures id !in w.vans
  {
    Beyond(w.vans.Keys)
  }

  predicate NoFittingHolder(s: Sys, d: Id) {
    forall id <- s.flight | s.flight[id].Running() && Holds(s.flight[id], d) :: !PlateFits(s.world, s.flight[id])
  }

  // Once a deleted driver is off its vans, every continuation keeps it off if no van handler in flight
  // holds it, and only if none does whose plate the database takes. So it is exactly then, unless a holder
  // waits to write a plate that is refused as things stand.
  lemma ClearedDriverStaysOffIff(s: Sys, d: Id)
    requires Sound(s) && Gone(s.world, d)
    ensures NoHolder(s, d) ==> forall evs: seq<Event> :: OffVans(Run(s, evs).world, d)
    ensures (forall evs: seq<Event> :: OffVans(Run(s, evs).world, d)) ==> NoFittingHolder(s, d)
    ensures (forall id <- s.flight | Holds(s.flight[id], d) :: PlateFits(s.world, s.flight[id])) ==>
              ((forall evs: seq<Event> :: OffVans(Run(s, evs).world, d)) <==> NoHolder(s, d))
  {
    hide Run, Sound, Holds, PlateFits, OffVans;
    if NoHolder(s, d) {
      forall evs: seq<Event> ensures OffVans(Run(s, evs).world, d) {
        RunStaysGone(s, evs, d);
      }
    }
    if !NoFittingHolder(s, d) {
      var id :| id in s.flight && s.flight[id].Running() && Holds(s.flight[id], d) && PlateFits(s.world, s.flight[id]);
      var evs := HolderWrites(s, id, FreshVan(s.world), d);
      assert !OffVans(Run(s, evs).world, d);
    }
  }
}
