// A van handler that holds a deleted driver may be waiting to write a plate the database refuses. Whether
// it can still put the driver back on a van depends on whether that plate can still be freed.
module RefusedHolders {
  import opened Options
  import opened Text
  import opened Schema
  import opened Handlers
  import opened Frames
  import opened Machine
  import opened Isolation
  import opened Fleet
  import opened Overlap
  import opened FleetRaces
  import opened DriverRemoval
  import opened Sets

  // The plate the handler is going to write.
  function WantedPlate(th: Thread): Option<string> {
    match th.req
    case CreateVan(_, plate, _) => Some(Upper(plate))
    case UpdateVan(_, _, plate, _, _) => if plate.Some? then Some(Upper(plate.value)) else None
    case _ => None
  }

  // Van x, which is not the handler's own, has that plate.
  predicate InTheWay(w: World, th: Thread, x: Id) {
    x in w.vans && WantedPlate(th) == Some(w.vans[x].plate) && !(th.req.UpdateVan? && th.req.van == x)
  }

  // The handler has read van x and will give it another plate.
  predicate Replates(w: World, th: Thread, x: Id) {
    th.Running() && th.k >= 1 && th.req.UpdateVan? && th.req.van == x && x in w.vans &&
    th.req.newPlate.Some? && Upper(th.req.newPlate.value) != w.vans[x].plate
  }

  predicate Replated(s: Sys, x: Id) {
    exists id <- s.flight :: Replates(s.world, s.flight[id], x)
  }

  // A deleted van has the plate.
  predicate Blocked(w: World, th: Thread) {
    exists x <- w.vans :: w.vans[x].deleted && InTheWay(w, th, x)
  }

  // A deleted van has the plate and no update past its read will change that.
  predicate BlockedForGood(s: Sys, th: Thread) {
    exists x <- s.world.vans :: s.world.vans[x].deleted && InTheWay(s.world, th, x) && !Replated(s, x)
  }

  predicate HoldersBlocked(s: Sys, d: Id) {
    forall id <- s.flight | s.flight[id].Running() && Holds(s.flight[id], d) :: Blocked(s.world, s.flight[id])
  }

  predicate HoldersBlockedForGood(s: Sys, d: Id) {
    forall id <- s.flight | s.flight[id].Running() && Holds(s.flight[id], d) :: BlockedForGood(s, s.flight[id])
  }

  lemma FitsIffNoneInTheWay(w: World, th: Thread)
    ensures PlateFits(w, th) <==> forall x <- w.vans :: !InTheWay(w, th, x)
  {
    hide Upper;
  }

  // ---- a deleted van keeps its plate ----

  lemma VanOpOnDeleted(w: World, op: VanOp, l: Locals, school: Id, newId: Id, x: Id)
    requires x in w.vans && w.vans[x].deleted
    ensures var w' := ExecVan(w, op, l, school, newId).world;
            x in w'.vans && w'.vans[x].deleted &&
            (!(op.WriteVan? && op.van == x && op.newPlate.Some?) ==> w'.vans[x].plate == w.vans[x].plate) &&
            (op.WriteVan? && op.van == x && op.newPlate.Some? ==>
               w'.vans[x].plate in {w.vans[x].plate, Upper(op.newPlate.value)})
  {
    hide Upper, PlateTaken, PlateTakenInSchool;
  }

  lemma ReplatingWrites(th: Thread)
    requires th.Running() && OfVans(th.req)
    ensures var op := VanProgram(th.req)[th.k];
            op.WriteVan? ==> th.req.UpdateVan? && th.k == 4 && op.van == th.req.van && op.newPlate == th.req.newPlate
  {
  }

  lemma CallOnDeleted(w: World, th: Thread, now: nat, newId: Id, x: Id)
    requires th.Running() && x in w.vans && w.vans[x].deleted
    ensures var w' := Call(w, th, now, newId).world;
            x in w'.vans && w'.vans[x].deleted && (!Replates(w, th, x) ==> w'.vans[x].plate == w.vans[x].plate)
  {
    if OfTrips(th.req) {
      TripFrame(w, TripProgram(th.req)[th.k], th.locals, th.req.school, now, newId);
      hide ExecTrip, TripProgram, Upper;
    } else if OfVans(th.req) {
      hide ExecVan, VanProgram, Upper;
      ReplatingWrites(th);
      VanOpOnDeleted(w, VanProgram(th.req)[th.k], th.locals, th.req.school, newId, x);
    } else {
      hide ExecPerson, PersonProgram, Upper;
      PersonCallOnUsers(w, th, newId, 0);
    }
  }

  // No update gets past its read of a deleted van.
  lemma DeletedIsNotRead(w: World, th: Thread, now: nat, newId: Id, x: Id)
    requires th.Running() && x in w.vans && w.vans[x].deleted && th.req.UpdateVan? && th.req.van == x && th.k == 0
    ensures Call(w, th, now, newId).Stop?
  {
  }

  // A holder whose plate is taken writes nothing.
  lemma RefusedWritesNothing(w: World, th: Thread, now: nat, newId: Id, d: Id)
    requires th.Running() && Holds(th, d) && !PlateFits(w, th)
    ensures Call(w, th, now, newId).world == w
  {
    hide Upper, PlateTaken, PlateTakenInSchool;
  }

  lemma BlockerStays(s: Sys, ev: Event, th: Thread, x: Id)
    requires x in s.world.vans && s.world.vans[x].deleted && InTheWay(s.world, th, x) && !Replated(s, x)
    ensures var s' := Tick(s, ev);
            x in s'.world.vans && s'.world.vans[x].deleted && InTheWay(s'.world, th, x) && !Replated(s', x)
  {
    hide Call, Length, Upper;
    var s' := Tick(s, ev);
    if Calls(s, ev) {
      var t, now := s.flight[ev.id], s.clock + ev.elapsed;
      assert !Replates(s.world, t, x);
      CallOnDeleted(s.world, t, now, ev.newId, x);
      if t.req.UpdateVan? && t.req.van == x && t.k == 0 {
        DeletedIsNotRead(s.world, t, now, ev.newId, x);
      }
      forall id <- s'.flight ensures !Replates(s'.world, s'.flight[id], x) {
        assert !Replates(s.world, s.flight[id], x);
      }
    } else {
      IdleChangesLittle(s, ev);
    }
  }

  lemma BlockedForGoodStays(s: Sys, ev: Event, th: Thread, th': Thread)
    requires BlockedForGood(s, th) && th'.req == th.req
    ensures BlockedForGood(Tick(s, ev), th')
  {
    hide Tick, Replated;
    var x :| x in s.world.vans && s.world.vans[x].deleted && InTheWay(s.world, th, x) && !Replated(s, x);
    BlockerStays(s, ev, th, x);
    assert InTheWay(Tick(s, ev).world, th', x);
  }

  lemma BlockedIsRefused(s: Sys, th: Thread)
    requires BlockedForGood(s, th)
    ensures !PlateFits(s.world, th)
  {
    hide PlateFits, InTheWay;
    FitsIffNoneInTheWay(s.world, th);
  }

  lemma BlockedCallWritesNoDriver(s: Sys, ev: Event, d: Id)
    requires Gone(s.world, d) && Calls(s, ev)
    requires Holds(s.flight[ev.id], d) ==> BlockedForGood(s, s.flight[ev.id])
    ensures Gone(Tick(s, ev).world, d)
  {
    hide Call, Length, PlateFits, Holds, BlockedForGood;
    var th, now := s.flight[ev.id], s.clock + ev.elapsed;
    CallOnUsers(s.world, th, now, ev.newId, d);
    if Holds(th, d) {
      BlockedIsRefused(s, th);
      RefusedWritesNothing(s.world, th, now, ev.newId, d);
    }
    var w' := Tick(s, ev).world;
    forall v <- w'.vans ensures w'.vans[v].driver != Some(d) {
      CallOnDrivers(s.world, th, now, ev.newId, v);
    }
  }

  lemma TickStaysBlocked(s: Sys, ev: Event, d: Id)
    requires Gone(s.world, d) && HoldersBlockedForGood(s, d)
    ensures Gone(Tick(s, ev).world, d) && HoldersBlockedForGood(Tick(s, ev), d)
  {
    hide Call, Length, BlockedForGood, Holds;
    var s' := Tick(s, ev);
    if Calls(s, ev) {
      var th, now := s.flight[ev.id], s.clock + ev.elapsed;
      BlockedCallWritesNoDriver(s, ev, d);
      CallOnHolding(s.world, th, now, ev.newId, d);
    } else {
      IdleChangesLittle(s, ev);
      OpenedHoldsNobody(ev, d);
    }
    forall id <- s'.flight | s'.flight[id].Running() && Holds(s'.flight[id], d) ensures BlockedForGood(s', s'.flight[id]) {
      assert id in s.flight && s.flight[id].Running() && Holds(s.flight[id], d) && s'.flight[id].req == s.flight[id].req;
      BlockedForGoodStays(s, ev, s.flight[id], s'.flight[id]);
    }
  }

  lemma OpenedHoldsNobody(ev: Event, d: Id)
    ensures ev.Arrive? ==> !Holds(Opened(ev.req), d)
  {
  }

  lemma {:induction false} RunStaysBlocked(s: Sys, evs: seq<Event>, d: Id)
    requires Gone(s.world, d) && HoldersBlockedForGood(s, d)
    ensures Gone(Run(s, evs).world, d)
    ensures HoldersBlockedForGood(Run(s, evs), d)
  {
    hide Tick, Gone, HoldersBlockedForGood;
    if evs != [] {
      RunStaysBlocked(s, evs[..|evs| - 1], d);
      TickStaysBlocked(Run(s, evs[..|evs| - 1]), evs[|evs| - 1], d);
    }
  }

  // ---- the plate of a van that is not deleted can be freed ----

  // A plate longer than all others.
  ghost function UnusedPlate(w: World): (p: string)
    ensures forall v <- w.vans :: w.vans[v].plate != p
    ensures Upper(p) == p
  {
    var n := Beyond(set v <- w.vans :: |w.vans[v].plate|);
    seq(n, _ => '0')
  }

  function WithPlate(w: World, x: Id, plate: string): World
    requires x in w.vans
  {
    w.(vans := w.vans[x := w.vans[x].(plate := plate)])
  }

  lemma ReplateCalls(w: World, x: Id, q: string, now: nat)
    requires x in w.vans && !w.vans[x].deleted && Upper(q) == q && forall v <- w.vans :: w.vans[v].plate != q
    ensures var req := UpdateVan(w.vans[x].school, x, Some(q), None, None);
            var l := FRESH_LOCALS.(plate := w.vans[x].plate, driver := w.vans[x].driver);
            Call(w, Opened(req), now, 0) == Next(w, l) &&
            Call(w, Thread(req, 1, l), now, 0) == Next(w, l) &&
            Call(w, Thread(req, 2, l), now, 0) == Next(w, l) &&
            Call(w, Thread(req, 3, l), now, 0) == Next(w, l) &&
            Call(w, Thread(req, 4, l), now, 0) == Next(WithPlate(w, x, q), l)
  {
    hide Upper;
  }

  // An update by an administrator of the van's school while nothing else moves.
  lemma ReplateRuns(s: Sys, x: Id, q: string) returns (evs: seq<Event>)
    requires x in s.world.vans && !s.world.vans[x].deleted && Upper(q) == q
    requires forall v <- s.world.vans :: s.world.vans[v].plate != q
    ensures Run(s, evs).world == WithPlate(s.world, x, q) && Run(s, evs).flight == s.flight
  {
    hide Call, Run, Upper;
    var w := s.world;
    var id := Beyond(s.flight.Keys + s.answers.Keys);
    var req := UpdateVan(w.vans[x].school, x, Some(q), None, None);
    var l := FRESH_LOCALS.(plate := w.vans[x].plate, driver := w.vans[x].driver);
    RunOn(s, [], Arrive(id, req));
    RunNone(s);
    evs := [] + [Arrive(id, req)];
    ReplateCalls(w, x, q, s.clock + 1);
    evs := Moves(s, evs, id, w, l);
    ReplateCalls(w, x, q, s.clock + 2);
    evs := Moves(s, evs, id, w, l);
    ReplateCalls(w, x, q, s.clock + 3);
    evs := Moves(s, evs, id, w, l);
    ReplateCalls(w, x, q, s.clock + 4);
    evs := Moves(s, evs, id, w, l);
    ReplateCalls(w, x, q, s.clock + 5);
    evs := Moves(s, evs, id, WithPlate(w, x, q), l);
    assert Run(s, evs).flight == s.flight;
  }

  lemma RunNone(s: Sys)
    ensures Run(s, []) == s
  {
  }

  lemma {:induction false} RunIsSound(s: Sys, evs: seq<Event>)
    requires Sound(s)
    ensures Sound(Run(s, evs))
  {
    hide Tick, Sound;
    if evs != [] {
      RunIsSound(s, evs[..|evs| - 1]);
      TickIsSound(Run(s, evs[..|evs| - 1]), evs[|evs| - 1]);
    }
  }

  // With the plates different, one van at most is in the way, and a new plate for it clears the way.
  lemma ReplatingFits(w: World, th: Thread, x: Id, q: string)
    requires PlatesLawful(w) && InTheWay(w, th, x) && w.vans[x].plate != q
    ensures PlateFits(WithPlate(w, x, q), th)
  {
    hide PlateFits, WantedPlate, Upper;
    FitsIffNoneInTheWay(WithPlate(w, x, q), th);
  }

  // A holder that no deleted van blocks can be let through and puts the driver back on a van.
  lemma UnblockedHolderWrites(s: Sys, id: Id, d: Id) returns (evs: seq<Event>)
    requires Sound(s) && PlatesLawful(s.world) && OffVans(s.world, d)
    requires id in s.flight && s.flight[id].Running() && Holds(s.flight[id], d) && !Blocked(s.world, s.flight[id])
    ensures !OffVans(Run(s, evs).world, d)
  {
    hide Run, Sound, Holds, PlateFits, InTheWay, PlatesLawful;
    var th := s.flight[id];
    if PlateFits(s.world, th) {
      evs := HolderWrites(s, id, FreshVan(s.world), d);
    } else {
      FitsIffNoneInTheWay(s.world, th);
      var x :| x in s.world.vans && InTheWay(s.world, th, x);
      var q := UnusedPlate(s.world);
      var first := ReplateRuns(s, x, q);
      var s' := Run(s, first);
      RunIsSound(s, first);
      ReplatingFits(s.world, th, x, q);
      var rest := HolderWrites(s', id, FreshVan(s'.world), d);
      RunJoins(s, first, rest);
      evs := first + rest;
    }
  }

  lemma BlockedForGoodIff(s: Sys, th: Thread)
    requires forall x <- s.world.vans | s.world.vans[x].deleted :: !Replated(s, x)
    ensures BlockedForGood(s, th) <==> Blocked(s.world, th)
  {
    hide InTheWay, Replated;
  }

  // After the clearing write a deleted driver stays off every van, in every continuation, if each handler in
  // flight that holds it is after a plate that a deleted van has for good, and only if each is after a plate
  // that a deleted van has. When no update in flight has read a van before its deletion to give it another
  // plate, the two are the same.
  lemma DriverStaysOffIffHoldersBlocked(s: Sys, d: Id)
    requires Sound(s) && Gone(s.world, d) && PlatesLawful(s.world)
    ensures HoldersBlockedForGood(s, d) ==> forall evs: seq<Event> :: OffVans(Run(s, evs).world, d)
    ensures (forall evs: seq<Event> :: OffVans(Run(s, evs).world, d)) ==> HoldersBlocked(s, d)
    ensures (forall x <- s.world.vans | s.world.vans[x].deleted :: !Replated(s, x)) ==>
              ((forall evs: seq<Event> :: OffVans(Run(s, evs).world, d)) <==> HoldersBlocked(s, d))
  {
    hide Run, Sound, Holds, Blocked, BlockedForGood, OffVans, PlatesLawful, Replated;
    if HoldersBlockedForGood(s, d) {
      forall evs: seq<Event> ensures OffVans(Run(s, evs).world, d) {
        RunStaysBlocked(s, evs, d);
      }
    }
    if !HoldersBlocked(s, d) {
      var id :| id in s.flight && s.flight[id].Running() && Holds(s.flight[id], d) && !Blocked(s.world, s.flight[id]);
      var evs := UnblockedHolderWrites(s, id, d);
      assert !OffVans(Run(s, evs).world, d);
    }
    if forall x <- s.world.vans | s.world.vans[x].deleted :: !Replated(s, x) {
      forall id <- s.flight ensures BlockedForGood(s, s.flight[id]) <==> Blocked(s.world, s.flight[id]) {
        BlockedForGoodIff(s, s.flight[id]);
      }
    }
  }
}
