// Fleet handlers in flight together: plates stay different because the database says so; the rule
// about deleted drivers rests on handlers not overlapping.
module FleetRaces {
  import opened Options
  import opened Text
  import opened Schema
  import opened Handlers
  import opened Frames
  import opened Machine
  import opened Fleet
  import opened Overlap

  lemma VanCallKeepsPlates(w: World, op: VanOp, l: Locals, school: Id, newId: Id)
    requires PlatesLawful(w)
    ensures PlatesLawful(ExecVan(w, op, l, school, newId).world)
  {
    if op.InsertVan? {
      UpperTwice(op.plate);
    } else if op.WriteVan? && op.newPlate.Some? {
      UpperTwice(op.newPlate.value);
    }
    hide Upper;
  }

  lemma CallKeepsPlates(w: World, th: Thread, now: nat, newId: Id)
    requires th.Running() && PlatesLawful(w)
    ensures PlatesLawful(Call(w, th, now, newId).world)
  {
    if OfTrips(th.req) {
      TripFrame(w, TripProgram(th.req)[th.k], th.locals, th.req.school, now, newId);
      hide ExecTrip, Upper;
    } else if OfVans(th.req) {
      VanCallKeepsPlates(w, VanProgram(th.req)[th.k], th.locals, th.req.school, newId);
      hide ExecVan, PlatesLawful;
    } else {
      PersonFrame(w, PersonProgram(th.req)[th.k], th.locals, th.req.school, newId);
      hide Upper;
    }
  }

  // However van handlers interleave, plates stay upper-case and different.
  lemma {:induction false} PlatesSurviveInterleaving(w: World, clock: nat, evs: seq<Event>)
    requires PlatesLawful(w)
    ensures PlatesLawful(Run(Quiet(w, clock), evs).world)
  {
    hide Call, PlatesLawful;
    if evs != [] {
      var before, ev := evs[..|evs| - 1], evs[|evs| - 1];
      PlatesSurviveInterleaving(w, clock, before);
      var s := Run(Quiet(w, clock), before);
      if Calls(s, ev) {
        CallKeepsPlates(s.world, s.flight[ev.id], s.clock + ev.elapsed, ev.newId);
      } else {
        IdleChangesLittle(s, ev);
        SameVansSamePlates(s.world, Tick(s, ev).world);
      }
    }
  }

  lemma SameVansSamePlates(w: World, w': World)
    requires w'.vans == w.vans
    ensures PlatesLawful(w) ==> PlatesLawful(w')
  {
  }

  // One more call of thread id, given its outcome.
  lemma Moves(s: Sys, evs: seq<Event>, id: Id, w': World, l': Locals) returns (evs': seq<Event>)
    requires var at := Run(s, evs);
             id in at.flight && at.flight[id].Running() && Call(at.world, at.flight[id], at.clock + 1, 0) == Next(w', l')
    ensures var at, s' := Run(s, evs), Run(s, evs');
            var th' := Thread(at.flight[id].req, at.flight[id].k + 1, l');
            s'.world == w' && s'.clock == at.clock + 1 &&
            s'.flight == if th'.Running() then at.flight[id := th'] else at.flight - {id}
  {
    hide Call, Length, Run;
    evs' := evs + [Advance(id, 1, 0)];
    RunOn(s, evs, Advance(id, 1, 0));
  }

  lemma AssignChecks(w: World, req: Request, now: nat)
    requires req.AssignDriver? && Accepts(w, req)
    ensures var l := FRESH_LOCALS.(plate := w.vans[req.van].plate, driver := w.vans[req.van].driver);
            Call(w, Opened(req), now, 0) == Next(w, l) &&
            Call(w, Thread(req, 1, l), now, 0) == Next(w, l) &&
            Call(w, Thread(req, 2, l), now, 0) == Next(w, l)
  {
  }

  lemma AssignWrites(w: World, req: Request, l: Locals, now: nat)
    requires req.AssignDriver? && req.van in w.vans
    ensures Call(w, Thread(req, 3, l), now, 0) == Next(w.(vans := w.vans[req.van := w.vans[req.van].(driver := Some(req.driver))]), l)
  {
  }

  function Retired(w: World, d: Id): World
    requires d in w.users
  {
    w.(users := w.users[d := w.users[d].(active := false, deleted := true)])
  }

  lemma RemovalCalls(w: World, req: Request, now: nat)
    requires req.RemoveDriver? && Usable(w, req.school, req.driver, DRIVER)
    ensures var w1 := Retired(w, req.driver);
            Call(w, Opened(req), now, 0) == Next(w, FRESH_LOCALS) &&
            Call(w, Thread(req, 1, FRESH_LOCALS), now, 0) == Next(w1, FRESH_LOCALS) &&
            Call(w1, Thread(req, 2, FRESH_LOCALS), now, 0)
            == Next(w1.(vans := WithoutDriver(w1.vans, req.school, req.driver)), FRESH_LOCALS)
  {
  }

  // assignDriver has made its checks when drivers.remove soft-deletes the driver and clears the vans;
  // its write then points the van at the deleted driver.
  lemma AssignmentRacesRemoval(w: World, clock: nat, a: Request, b: Request) returns (evs: seq<Event>)
    requires a.AssignDriver? && Accepts(w, a)
    requires b.RemoveDriver? && b.school == a.school && b.driver == a.driver
    ensures var w' := Run(Quiet(w, clock), evs).world;
            a.van in w'.vans && w'.vans[a.van].driver == Some(a.driver) &&
            a.driver in w'.users && w'.users[a.driver].deleted && !DriversPresent(w')
  {
    hide Call, Run;
    var s := Quiet(w, clock);
    var l := FRESH_LOCALS.(plate := w.vans[a.van].plate, driver := w.vans[a.van].driver);
    evs := [Arrive(0, a), Arrive(1, b)];
    BothArrive(s, evs, a, b);
    assert evs[..2] == evs;
    AssignChecks(w, a, clock + 1);
    evs := Moves(s, evs, 0, w, l);
    AssignChecks(w, a, clock + 2);
    evs := Moves(s, evs, 0, w, l);
    AssignChecks(w, a, clock + 3);
    evs := Moves(s, evs, 0, w, l);
    RemovalCalls(w, b, clock + 4);
    evs := Moves(s, evs, 1, w, FRESH_LOCALS);
    RemovalCalls(w, b, clock + 5);
    var w1 := Retired(w, a.driver);
    evs := Moves(s, evs, 1, w1, FRESH_LOCALS);
    RemovalCalls(w, b, clock + 6);
    var w2 := w1.(vans := WithoutDriver(w1.vans, a.school, a.driver));
    evs := Moves(s, evs, 1, w2, FRESH_LOCALS);
    AssignWrites(w2, a, l, clock + 7);
    evs := Moves(s, evs, 0, w2.(vans := w2.vans[a.van := w2.vans[a.van].(driver := Some(a.driver))]), l);
  }
}
