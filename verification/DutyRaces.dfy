// One van on duty per driver, with any number of handlers in flight. A handler looks whether the driver
// is free and writes later; what it saw can be out of date by then.
module DutyRaces {
  import opened Options
  import opened Text
  import opened Schema
  import opened Handlers
  import opened Frames
  import opened Machine
  import opened Isolation
  import opened Fleet
  import opened FleetRaces
  import opened DriverRemoval
  import opened Overlap

  // The handler may give a van a driver; a cautious create never does.
  predicate GivesDriver(th: Thread) {
    th.req.UpdateVan? || th.req.AssignDriver?
  }

  // The handler has found the driver free for its van and will write it: after its check that the driver
  // is free, or, for an update that names none, after it has read the van's own driver.
  predicate Claims(th: Thread, d: Id) {
    match th.req
    case UpdateVan(_, _, _, driver, _) =>
      if driver.Some? then driver == Some(d) && th.k == 4 else th.locals.driver == Some(d) && 1 <= th.k <= 4
    case AssignDriver(_, _, driver) => driver == d && th.k == 3
    case _ => false
  }

  // No van on duty but this one has the driver.
  predicate FreeBut(w: World, d: Id, van: Id) {
    forall u <- w.vans :: u != van && OnDuty(w.vans[u]) ==> w.vans[u].driver != Some(d)
  }

  // What the handler saw still holds. An update that names no driver does not put its van on duty, so
  // only a van that is on duty matters to it.
  predicate ClaimHolds(w: World, th: Thread, d: Id) {
    (NamesNoDriver(th) && !(th.req.van in w.vans && OnDuty(w.vans[th.req.van]))) ||
    (GivesDriver(th) ==> FreeBut(w, d, th.req.van))
  }

  // The handler's next call is its write of the van.
  predicate AtWrite(th: Thread) {
    (th.req.UpdateVan? && th.k == 4) || (th.req.AssignDriver? && th.k == 3)
  }

  predicate NamesNoDriver(th: Thread) {
    th.req.UpdateVan? && th.req.driverOpt.None?
  }

  // The van comes out of the handler's write on duty.
  predicate LeavesOnDuty(w: World, th: Thread)
    requires GivesDriver(th)
  {
    th.req.van in w.vans && !w.vans[th.req.van].deleted &&
    (if th.req.UpdateVan? && th.req.newActive.Some? then th.req.newActive.value else w.vans[th.req.van].active)
  }

  // The write takes away what the other handler saw: it gives the driver the other claims to another van
  // on duty, or it puts on duty the van whose driver, busy elsewhere, the other is going to write back.
  ghost predicate Crosses(w: World, writer: Thread, other: Thread)
    requires AtWrite(writer)
  {
    GivesDriver(other) && other.req.van in w.vans &&
    LeavesOnDuty(w, writer) && PlateFits(w, writer) &&
    exists d: Id :: Claims(other, d) &&
      (if writer.req.van == other.req.van
       then NamesNoDriver(other) && !OnDuty(w.vans[other.req.van]) && !FreeBut(w, d, other.req.van)
       else Claims(writer, d) && !(NamesNoDriver(other) && !OnDuty(w.vans[other.req.van])))
  }

  ghost predicate Uncrossed(s: Sys, ev: Event) {
    Calls(s, ev) && AtWrite(s.flight[ev.id]) ==>
      forall id | id in s.flight && id != ev.id :: !Crosses(s.world, s.flight[ev.id], s.flight[id])
  }

  ghost predicate UncrossedRun(s: Sys, evs: seq<Event>) {
    forall i | 0 <= i < |evs| :: Uncrossed(Run(s, evs[..i]), evs[i])
  }

  predicate CautiousArrivals(evs: seq<Event>) {
    forall i | 0 <= i < |evs| && evs[i].Arrive? :: Cautious(evs[i].req)
  }

  ghost predicate DutyLaw(s: Sys) {
    OneVanPerDriver(s.world) &&
    (forall id | id in s.flight :: Cautious(s.flight[id].req)) &&
    (forall id, d: Id | id in s.flight && Claims(s.flight[id], d) :: ClaimHolds(s.world, s.flight[id], d))
  }

  // ---- calls that put no van and driver together ----

  // Vans on duty with a driver were so before, and no van comes on duty.
  ghost predicate Shrinks(w: World, w': World) {
    (forall v <- w'.vans | OnDuty(w'.vans[v]) && w'.vans[v].driver.Some? ::
       v in w.vans && OnDuty(w.vans[v]) && w.vans[v].driver == w'.vans[v].driver) &&
    (forall v <- w.vans :: v in w'.vans && (OnDuty(w'.vans[v]) ==> OnDuty(w.vans[v])))
  }

  lemma VanOpShrinks(w: World, op: VanOp, l: Locals, school: Id, newId: Id)
    requires !op.WriteVan? && (op.WriteVanDriver? ==> op.driverOpt.None?) && (op.InsertVan? ==> op.driverOpt.None?)
    ensures Shrinks(w, ExecVan(w, op, l, school, newId).world)
  {
    hide Upper, PlateTaken, PlateTakenInSchool;
  }

  lemma WritingOps(th: Thread)
    requires th.Running() && OfVans(th.req) && Cautious(th.req) && !AtWrite(th)
    ensures var op := VanProgram(th.req)[th.k];
            !op.WriteVan? && (op.WriteVanDriver? ==> op.driverOpt.None?) && (op.InsertVan? ==> op.driverOpt.None?)
  {
  }

  lemma OtherCallsShrink(w: World, th: Thread, now: nat, newId: Id)
    requires th.Running() && Cautious(th.req) && !AtWrite(th)
    ensures Shrinks(w, Call(w, th, now, newId).world)
  {
    if OfTrips(th.req) {
      TripFrame(w, TripProgram(th.req)[th.k], th.locals, th.req.school, now, newId);
      hide ExecTrip, TripProgram;
    } else if OfVans(th.req) {
      hide ExecVan, VanProgram;
      WritingOps(th);
      VanOpShrinks(w, VanProgram(th.req)[th.k], th.locals, th.req.school, newId);
    } else {
      hide ExecPerson, PersonProgram;
      PersonCallOnUsers(w, th, newId, 0);
    }
  }

  lemma ShrinkingKeepsClaims(w: World, w': World, th: Thread, d: Id)
    requires GivesDriver(th) && th.req.van in w.vans
    requires Shrinks(w, w') && ClaimHolds(w, th, d)
    ensures ClaimHolds(w', th, d)
  {
  }

  lemma ShrinkingKeepsDuty(w: World, w': World)
    requires Shrinks(w, w') && OneVanPerDriver(w)
    ensures OneVanPerDriver(w')
  {
  }

  // ---- the writes ----

  // The driver a handler at its write gives its van.
  function Written(th: Thread): Option<Id>
    requires AtWrite(th)
  {
    if th.req.AssignDriver? then Some(th.req.driver)
    else if th.req.driverOpt.Some? then th.req.driverOpt else th.locals.driver
  }

  // The write goes through: the database refuses only a plate that is taken.
  lemma WriteCall(w: World, th: Thread, now: nat, newId: Id)
    requires AtWrite(th) && th.req.van in w.vans
    ensures var w' := Call(w, th, now, newId).world;
            if !PlateFits(w, th) then w' == w
            else w' == w.(vans := w'.vans) && w'.vans.Keys == w.vans.Keys &&
                 w'.vans[th.req.van].driver == Written(th) && (OnDuty(w'.vans[th.req.van]) <==> LeavesOnDuty(w, th)) &&
                 forall v | v in w.vans && v != th.req.van :: w'.vans[v] == w.vans[v]
  {
    hide Upper, PlateTaken;
  }

  lemma WriterClaims(th: Thread)
    requires AtWrite(th) && th.Running()
    ensures forall d: Id :: Claims(th, d) <==> Written(th) == Some(d)
  {
  }

  // A write of a driver leaves two vans on duty with one driver exactly when the database does not
  // refuse it, the van comes out on duty and another van on duty has the driver by then.
  lemma WriteDoublesIff(w: World, th: Thread, now: nat, newId: Id)
    requires AtWrite(th) && th.Running() && th.req.van in w.vans && OneVanPerDriver(w)
    ensures OneVanPerDriver(Call(w, th, now, newId).world) <==>
            !(PlateFits(w, th) && LeavesOnDuty(w, th) && Written(th).Some? && !FreeBut(w, Written(th).value, th.req.van))
  {
    hide Call, PlateFits;
    WriteCall(w, th, now, newId);
    var w', v := Call(w, th, now, newId).world, th.req.van;
    if PlateFits(w, th) && LeavesOnDuty(w, th) && Written(th).Some? && !FreeBut(w, Written(th).value, v) {
      var u :| u in w.vans && u != v && OnDuty(w.vans[u]) && w.vans[u].driver == Written(th);
      assert w'.vans[u].driver == w'.vans[v].driver;
    }
  }

  lemma WriteKeepsDuty(w: World, th: Thread, now: nat, newId: Id)
    requires AtWrite(th) && th.Running() && th.req.van in w.vans && OneVanPerDriver(w) && Cautious(th.req)
    requires forall d: Id | Claims(th, d) :: ClaimHolds(w, th, d)
    ensures OneVanPerDriver(Call(w, th, now, newId).world)
  {
    hide Call, PlateFits, FreeBut;
    WriteDoublesIff(w, th, now, newId);
    WriterClaims(th);
  }

  // A write leaves what another handler has seen true exactly when it does not cross it.
  lemma CrossesIff(w: World, th: Thread, other: Thread, now: nat, newId: Id)
    requires AtWrite(th) && th.Running() && th.req.van in w.vans
    requires GivesDriver(other) && other.req.van in w.vans
    requires forall d: Id | Claims(other, d) :: ClaimHolds(w, other, d)
    ensures Crosses(w, th, other) <==>
            exists d: Id :: Claims(other, d) && !ClaimHolds(Call(w, th, now, newId).world, other, d)
  {
    hide Call, PlateFits, Claims;
    WriteCall(w, th, now, newId);
    WriterClaims(th);
    forall d: Id | Claims(other, d)
      ensures !ClaimHolds(Call(w, th, now, newId).world, other, d) <==>
              LeavesOnDuty(w, th) && PlateFits(w, th) &&
              (if th.req.van == other.req.van
               then NamesNoDriver(other) && !OnDuty(w.vans[other.req.van]) && !FreeBut(w, d, other.req.van)
               else Claims(th, d) && !(NamesNoDriver(other) && !OnDuty(w.vans[other.req.van])))
    {
      WriteOnClaim(w, th, other, now, newId, d);
    }
  }

  lemma WriteOnClaim(w: World, th: Thread, other: Thread, now: nat, newId: Id, d: Id)
    requires AtWrite(th) && th.Running() && th.req.van in w.vans
    requires GivesDriver(other) && other.req.van in w.vans
    requires Claims(other, d) && ClaimHolds(w, other, d)
    ensures !ClaimHolds(Call(w, th, now, newId).world, other, d) <==>
            LeavesOnDuty(w, th) && PlateFits(w, th) &&
            (if th.req.van == other.req.van
             then NamesNoDriver(other) && !OnDuty(w.vans[other.req.van]) && !FreeBut(w, d, other.req.van)
             else Claims(th, d) && !(NamesNoDriver(other) && !OnDuty(w.vans[other.req.van])))
  {
    hide Call, PlateFits, Claims;
    WriteCall(w, th, now, newId);
    WriterClaims(th);
    var w', v := Call(w, th, now, newId).world, th.req.van;
    assert v in w'.vans;
    if v != other.req.van && OnDuty(w'.vans[v]) && w'.vans[v].driver == Some(d) {
      assert !FreeBut(w', d, other.req.van);
    }
  }

  // ---- the claims a handler gains ----

  lemma ReadsGiveClaims(w: World, th: Thread, now: nat, newId: Id, d: Id)
    requires th.Running() && Closed(w) && Learnt(w, th) && OneVanPerDriver(w)
    requires GivesDriver(th)
    ensures var r := Call(w, th, now, newId);
            r.Next? && Claims(Later(th, r), d) && !Claims(th, d) ==>
              r.world == w && ClaimHolds(w, Later(th, r), d)
    ensures var r := Call(w, th, now, newId);
            r.Next? && Claims(Later(th, r), d) && Claims(th, d) ==> r.world == w
  {
    var r := Call(w, th, now, newId);
    hide Upper, PlateTaken, PlateTakenInSchool;
  }

  lemma OnlyVanHandlersClaim(th: Thread, d: Id)
    ensures Claims(th, d) ==> GivesDriver(th) && th.k >= 1
  {
  }

  // ---- the invariant ----

  lemma OwnClaimsHold(s: Sys, ev: Event, d: Id)
    requires Sound(s) && DutyLaw(s) && Calls(s, ev) && ev.id in Tick(s, ev).flight && Claims(Tick(s, ev).flight[ev.id], d)
    ensures ClaimHolds(Tick(s, ev).world, Tick(s, ev).flight[ev.id], d)
  {
    hide Call, Length, Closed, ClaimHolds;
    var th, now := s.flight[ev.id], s.clock + ev.elapsed;
    assert Learnt(s.world, th);
    OnlyVanHandlersClaim(Tick(s, ev).flight[ev.id], d);
    ReadsGiveClaims(s.world, th, now, ev.newId, d);
    var r := Call(s.world, th, now, ev.newId);
    assert Tick(s, ev).flight[ev.id] == Later(th, r);
    if Claims(th, d) {
      SameClaim(s.world, th, Later(th, r), d);
    }
  }

  lemma SameClaim(w: World, th: Thread, th': Thread, d: Id)
    requires th.req == th'.req && ClaimHolds(w, th, d)
    ensures ClaimHolds(w, th', d)
  {
  }

  lemma OtherClaimsHold(s: Sys, ev: Event, id: Id, d: Id)
    requires Sound(s) && DutyLaw(s) && Calls(s, ev) && Uncrossed(s, ev)
    requires id in s.flight && id != ev.id && Claims(s.flight[id], d)
    ensures ClaimHolds(Tick(s, ev).world, s.flight[id], d)
  {
    hide Call, Length, Closed, ClaimHolds, Crosses, Shrinks;
    var th, now := s.flight[ev.id], s.clock + ev.elapsed;
    OnlyVanHandlersClaim(s.flight[id], d);
    assert Learnt(s.world, th) && Learnt(s.world, s.flight[id]);
    if AtWrite(th) {
      CrossesIff(s.world, th, s.flight[id], now, ev.newId);
    } else {
      OtherCallsShrink(s.world, th, now, ev.newId);
      ShrinkingKeepsClaims(s.world, Call(s.world, th, now, ev.newId).world, s.flight[id], d);
    }
  }

  lemma TickKeepsOneVan(s: Sys, ev: Event)
    requires Sound(s) && DutyLaw(s) && Calls(s, ev)
    ensures OneVanPerDriver(Tick(s, ev).world)
  {
    hide Call, Length, Closed, ClaimHolds, Shrinks, OneVanPerDriver;
    var th, now := s.flight[ev.id], s.clock + ev.elapsed;
    assert Learnt(s.world, th);
    if AtWrite(th) {
      WriteKeepsDuty(s.world, th, now, ev.newId);
    } else {
      OtherCallsShrink(s.world, th, now, ev.newId);
      ShrinkingKeepsDuty(s.world, Call(s.world, th, now, ev.newId).world);
    }
  }

  lemma IdleKeepsDuty(s: Sys, ev: Event)
    requires DutyLaw(s) && !Calls(s, ev) && (ev.Arrive? ==> Cautious(ev.req))
    ensures DutyLaw(Tick(s, ev))
  {
    IdleChangesLittle(s, ev);
    hide Tick;
  }

  lemma TickKeepsDuty(s: Sys, ev: Event)
    requires Sound(s) && DutyLaw(s) && Uncrossed(s, ev) && (ev.Arrive? ==> Cautious(ev.req))
    ensures DutyLaw(Tick(s, ev))
  {
    hide Call, Length, Sound, OneVanPerDriver, Uncrossed, ClaimHolds, Claims;
    if Calls(s, ev) {
      TickKeepsOneVan(s, ev);
      var s' := Tick(s, ev);
      forall id, d: Id | id in s'.flight && Claims(s'.flight[id], d) ensures ClaimHolds(s'.world, s'.flight[id], d) {
        if id == ev.id {
          OwnClaimsHold(s, ev, d);
        } else {
          OtherClaimsHold(s, ev, id, d);
        }
      }
    } else {
      IdleKeepsDuty(s, ev);
    }
  }

  // However all handlers interleave: if creates carry no driver, updates that put a van on duty name its
  // driver, and no write of a van crosses what another handler has seen, no two vans on duty share a
  // driver in any reachable state.
  lemma {:induction false} UncrossedRunsKeepOneVan(w: World, clock: nat, evs: seq<Event>)
    requires Closed(w) && OneVanPerDriver(w) && CautiousArrivals(evs) && UncrossedRun(Quiet(w, clock), evs)
    ensures DutyLaw(Run(Quiet(w, clock), evs))
    ensures OneVanPerDriver(Run(Quiet(w, clock), evs).world)
  {
    if evs != [] {
      hide Tick, Uncrossed, Closed, OneVanPerDriver, Claims, ClaimHolds;
      var n, s := |evs| - 1, Quiet(w, clock);
      assert forall i | 0 <= i <= n :: evs[..n][..i] == evs[..i];
      UncrossedRunsKeepOneVan(w, clock, evs[..n]);
      ReferencesStayInSchool(w, clock, evs[..n]);
      assert Uncrossed(Run(s, evs[..n]), evs[n]);
      TickKeepsDuty(Run(s, evs[..n]), evs[n]);
    }
  }

  // No two van handlers in flight work on the same van or hold the same driver.
  ghost predicate Apart(s: Sys) {
    forall a, b | a in s.flight && b in s.flight && a != b && OfVans(s.flight[a].req) && OfVans(s.flight[b].req) ::
      (GivesDriver(s.flight[a]) && GivesDriver(s.flight[b]) ==> s.flight[a].req.van != s.flight[b].req.van) &&
      forall d: Id :: !(Holds(s.flight[a], d) && Holds(s.flight[b], d))
  }

  lemma ClaimersHold(th: Thread, d: Id)
    ensures Claims(th, d) ==> Holds(th, d)
  {
  }

  // A condition anyone can see from outside: keeping such handlers apart is enough.
  lemma ApartRunsAreUncrossed(s: Sys, evs: seq<Event>)
    requires forall i | 0 <= i < |evs| :: Apart(Run(s, evs[..i]))
    ensures UncrossedRun(s, evs)
  {
    hide Run, Holds, Claims;
    forall i | 0 <= i < |evs| ensures Uncrossed(Run(s, evs[..i]), evs[i]) {
      var at, ev := Run(s, evs[..i]), evs[i];
      forall id | Calls(at, ev) && AtWrite(at.flight[ev.id]) && id in at.flight && id != ev.id
        ensures !Crosses(at.world, at.flight[ev.id], at.flight[id])
      {
        forall d: Id
          ensures !(Claims(at.flight[ev.id], d) && Claims(at.flight[id], d))
        {
          ClaimersHold(at.flight[ev.id], d);
          ClaimersHold(at.flight[id], d);
        }
      }
    }
  }

  // ---- the other direction ----

  // The handler claims a driver that another van on duty has by now, and its write will neither be
  // refused nor leave its van off duty.
  ghost predicate Stale(w: World, th: Thread) {
    GivesDriver(th) && PlateFits(w, th) && LeavesOnDuty(w, th) &&
    exists d: Id :: Claims(th, d) && !ClaimHolds(w, th, d)
  }

  lemma StaleGoesOn(w: World, th: Thread, now: nat, newId: Id)
    requires th.Running() && Stale(w, th) && !AtWrite(th) && Learnt(w, th)
    ensures var r := Call(w, th, now, newId); r.Next? && r.world == w && r.locals == th.locals
  {
    if th.req.UpdateVan? && th.req.newPlate.Some? {
      TakenInSchoolIsTaken(w, th.req.school, Upper(th.req.newPlate.value), Some(th.req.van));
    }
    hide Upper, PlateTaken, PlateTakenInSchool, FreeBut;
  }

  lemma StaleWriteDoubles(w: World, th: Thread, now: nat, newId: Id)
    requires th.Running() && Stale(w, th) && AtWrite(th)
    ensures !OneVanPerDriver(Call(w, th, now, newId).world)
  {
    hide Call, PlateFits;
    WriteCall(w, th, now, newId);
    WriterClaims(th);
    var d: Id :| Claims(th, d) && !ClaimHolds(w, th, d);
    var u :| u in w.vans && u != th.req.van && OnDuty(w.vans[u]) && w.vans[u].driver == Some(d);
    var w' := Call(w, th, now, newId).world;
    assert w'.vans[u].driver == w'.vans[th.req.van].driver;
  }

  lemma StaleTicks(s: Sys, id: Id)
    requires id in s.flight && s.flight[id].Running() && Sound(s) && Stale(s.world, s.flight[id])
    ensures var s', th := Tick(s, Advance(id, 0, 0)), s.flight[id];
            if AtWrite(th) then !OneVanPerDriver(s'.world)
            else s'.world == s.world && id in s'.flight && s'.flight[id].Running() &&
                 s'.flight[id] == Thread(th.req, th.k + 1, th.locals)
  {
    hide Call, Closed, Stale, OneVanPerDriver;
    var th := s.flight[id];
    assert Learnt(s.world, th);
    if AtWrite(th) {
      StaleWriteDoubles(s.world, th, s.clock, 0);
    } else {
      StaleGoesOn(s.world, th, s.clock, 0);
      StaleIsShort(s.world, th);
    }
  }

  lemma StaleIsShort(w: World, th: Thread)
    requires th.Running() && Stale(w, th) && !AtWrite(th)
    ensures th.req.UpdateVan? && th.k + 1 < Length(th.req)
    ensures Stale(w, Thread(th.req, th.k + 1, th.locals))
  {
    hide PlateFits, FreeBut;
    var d: Id :| Claims(th, d) && !ClaimHolds(w, th, d);
    var later := Thread(th.req, th.k + 1, th.locals);
    assert Claims(later, d) && !ClaimHolds(w, later, d);
    assert PlateFits(w, later) by {
      SamePlateFits(w, th, later);
    }
  }

  lemma SamePlateFits(w: World, a: Thread, b: Thread)
    requires a.req == b.req
    ensures PlateFits(w, a) == PlateFits(w, b)
  {
  }

  // From any state with a stale claim in flight, the rule is broken as soon as that handler has made its
  // remaining calls.
  lemma {:induction false} StaleClaimDoubles(s: Sys, id: Id) returns (evs: seq<Event>)
    requires id in s.flight && s.flight[id].Running() && Sound(s) && Stale(s.world, s.flight[id])
    ensures !OneVanPerDriver(Run(s, evs).world)
    decreases Length(s.flight[id].req) - s.flight[id].k
  {
    hide Tick, Sound, Stale, OneVanPerDriver, Length;
    var ev := Advance(id, 0, 0);
    StaleTicks(s, id);
    TickIsSound(s, ev);
    assert [ev] == [] + [ev];
    RunOn(s, [], ev);
    if AtWrite(s.flight[id]) {
      evs := [ev];
    } else {
      StaleIsShort(s.world, s.flight[id]);
      var rest := StaleClaimDoubles(Tick(s, ev), id);
      RunJoins(s, [ev], rest);
      evs := [ev] + rest;
    }
  }

  // Of two handlers at their writes, the second leaves a driver with two vans on duty exactly when the
  // first crosses it, the database does not refuse it and its van comes out on duty.
  lemma SecondWriteDoublesIff(s: Sys, a: Id, b: Id)
    requires Sound(s) && DutyLaw(s) && a in s.flight && b in s.flight && a != b
    requires AtWrite(s.flight[a]) && AtWrite(s.flight[b]) && s.flight[a].Running() && s.flight[b].Running()
    ensures var s1 := Tick(s, Advance(a, 0, 0));
            b in s1.flight && s1.flight[b] == s.flight[b] &&
            (!OneVanPerDriver(Tick(s1, Advance(b, 0, 0)).world) <==>
             Crosses(s.world, s.flight[a], s.flight[b]) &&
             PlateFits(s1.world, s.flight[b]) && LeavesOnDuty(s1.world, s.flight[b]))
  {
    hide Call, Length, Closed, PlateFits, OneVanPerDriver, Claims, ClaimHolds, Crosses;
    var ta, tb := s.flight[a], s.flight[b];
    assert Learnt(s.world, ta) && Learnt(s.world, tb);
    var ev := Advance(a, 0, 0);
    var s1 := Tick(s, ev);
    TickIsSound(s, ev);
    assert b in s1.flight && s1.flight[b] == tb;
    assert Learnt(s1.world, tb);
    CrossesIff(s.world, ta, tb, s.clock, 0);
    TickKeepsOneVan(s, ev);
    WriterClaims(tb);
    if Crosses(s.world, ta, tb) {
      var d: Id :| Claims(tb, d) && !ClaimHolds(s1.world, tb, d);
      WriteDoublesIff(s1.world, tb, s1.clock, 0);
      BrokenIsBusy(s1.world, tb, d);
    } else {
      WriteKeepsDuty(s1.world, tb, s1.clock, 0);
    }
  }

  lemma BrokenIsBusy(w: World, th: Thread, d: Id)
    requires GivesDriver(th)
    ensures !ClaimHolds(w, th, d) ==> !FreeBut(w, d, th.req.van)
  {
  }

  // ---- the races, for every store that has the rows for them ----

  // Two assignments of one driver to two vans on duty: both find the driver free before either writes.
  lemma AssignmentsRace(w: World, clock: nat, a: Request, b: Request) returns (evs: seq<Event>)
    requires a.AssignDriver? && b.AssignDriver? && a.driver == b.driver && a.van != b.van
    requires Accepts(w, a) && Accepts(w, b) && OnDuty(w.vans[a.van]) && OnDuty(w.vans[b.van])
    ensures Cautious(a) && Cautious(b) && !OneVanPerDriver(Run(Quiet(w, clock), evs).world)
  {
    hide Call, Run;
    var s := Quiet(w, clock);
    var la := FRESH_LOCALS.(plate := w.vans[a.van].plate, driver := w.vans[a.van].driver);
    var lb := FRESH_LOCALS.(plate := w.vans[b.van].plate, driver := w.vans[b.van].driver);
    evs := [Arrive(0, a), Arrive(1, b)];
    BothArrive(s, evs, a, b);
    assert evs[..2] == evs;
    AssignChecks(w, a, clock + 1);
    evs := Moves(s, evs, 0, w, la);
    AssignChecks(w, a, clock + 2);
    evs := Moves(s, evs, 0, w, la);
    AssignChecks(w, a, clock + 3);
    evs := Moves(s, evs, 0, w, la);
    AssignChecks(w, b, clock + 4);
    evs := Moves(s, evs, 1, w, lb);
    AssignChecks(w, b, clock + 5);
    evs := Moves(s, evs, 1, w, lb);
    AssignChecks(w, b, clock + 6);
    evs := Moves(s, evs, 1, w, lb);
    AssignWrites(w, a, la, clock + 7);
    var w1 := w.(vans := w.vans[a.van := w.vans[a.van].(driver := Some(a.driver))]);
    evs := Moves(s, evs, 0, w1, la);
    AssignWrites(w1, b, lb, clock + 8);
    var w2 := w1.(vans := w1.vans[b.van := w1.vans[b.van].(driver := Some(b.driver))]);
    evs := Moves(s, evs, 1, w2, lb);
    assert w2.vans[a.van].driver == w2.vans[b.van].driver;
  }

  // An update that sets nothing but keeps the driver it read off the van.
  function Touch(school: Id, van: Id): Request {
    UpdateVan(school, van, None, None, None)
  }

  lemma TouchCalls(w: World, school: Id, van: Id, l: Locals, now: nat)
    requires VanIn(w, van, school)
    ensures var req := Touch(school, van);
            (!w.vans[van].deleted ==>
               Call(w, Opened(req), now, 0) == Next(w, FRESH_LOCALS.(plate := w.vans[van].plate, driver := w.vans[van].driver))) &&
            (forall k | 1 <= k <= 3 :: Call(w, Thread(req, k, l), now, 0) == Next(w, l)) &&
            Call(w, Thread(req, 4, l), now, 0) == Next(w.(vans := w.vans[van := w.vans[van].(driver := l.driver)]), l)
  {
    forall k | 1 <= k <= 3 ensures Call(w, Thread(Touch(school, van), k, l), now, 0) == Next(w, l) {
      if k == 1 {
      } else if k == 2 {
      } else {
      }
    }
  }

  lemma OnDutyCalls(w: World, req: Request, now: nat)
    requires req.UpdateVan? && req.newPlate.None? && req.driverOpt.Some? && req.newActive == Some(true) && Accepts(w, req)
    ensures var l := FRESH_LOCALS.(plate := w.vans[req.van].plate, driver := w.vans[req.van].driver);
            Call(w, Opened(req), now, 0) == Next(w, l) &&
            Call(w, Thread(req, 1, l), now, 0) == Next(w, l) &&
            Call(w, Thread(req, 2, l), now, 0) == Next(w, l) &&
            Call(w, Thread(req, 3, l), now, 0) == Next(w, l) &&
            Call(w, Thread(req, 4, l), now, 0)
            == Next(w.(vans := w.vans[req.van := w.vans[req.van].(driver := req.driverOpt, active := true)]), l)
  {
  }

  // The update that puts its van on duty makes its five calls.
  lemma OnDutyRuns(s: Sys, evs: seq<Event>, id: Id, req: Request) returns (evs': seq<Event>)
    requires req.UpdateVan? && req.newPlate.None? && req.driverOpt.Some? && req.newActive == Some(true)
    requires var at := Run(s, evs); id in at.flight && at.flight[id] == Opened(req) && Accepts(at.world, req)
    ensures var at, s' := Run(s, evs), Run(s, evs');
            s'.flight == at.flight - {id} && s'.clock == at.clock + 5 &&
            s'.world == at.world.(vans := at.world.vans[req.van :=
              at.world.vans[req.van].(driver := req.driverOpt, active := true)])
  {
    hide Call, Run;
    var at := Run(s, evs);
    var w := at.world;
    var l := FRESH_LOCALS.(plate := w.vans[req.van].plate, driver := w.vans[req.van].driver);
    OnDutyCalls(w, req, at.clock + 1);
    evs' := Moves(s, evs, id, w, l);
    OnDutyCalls(w, req, at.clock + 2);
    evs' := Moves(s, evs', id, w, l);
    OnDutyCalls(w, req, at.clock + 3);
    evs' := Moves(s, evs', id, w, l);
    OnDutyCalls(w, req, at.clock + 4);
    evs' := Moves(s, evs', id, w, l);
    OnDutyCalls(w, req, at.clock + 5);
    evs' := Moves(s, evs', id, w.(vans := w.vans[req.van := w.vans[req.van].(driver := req.driverOpt, active := true)]), l);
  }

  // The update that names no driver makes its last four calls.
  lemma TouchRuns(s: Sys, evs: seq<Event>, id: Id, school: Id, van: Id, l: Locals) returns (evs': seq<Event>)
    requires var at := Run(s, evs);
             id in at.flight && at.flight[id] == Thread(Touch(school, van), 1, l) && VanIn(at.world, van, school)
    ensures var w := Run(s, evs).world;
            Run(s, evs').world == w.(vans := w.vans[van := w.vans[van].(driver := l.driver)])
  {
    hide Call, Run;
    var at := Run(s, evs);
    var w := at.world;
    TouchCalls(w, school, van, l, at.clock + 1);
    evs' := Moves(s, evs, id, w, l);
    TouchCalls(w, school, van, l, at.clock + 2);
    evs' := Moves(s, evs', id, w, l);
    TouchCalls(w, school, van, l, at.clock + 3);
    evs' := Moves(s, evs', id, w, l);
    TouchCalls(w, school, van, l, at.clock + 4);
    evs' := Moves(s, evs', id, w.(vans := w.vans[van := w.vans[van].(driver := l.driver)]), l);
  }

  // Holding different drivers is not enough. A van off duty still names a driver who has another van;
  // an update of it that names no driver has read that, a second update gives it its own driver and puts
  // it on duty, and the first writes the old driver back.
  lemma WriteBackRace(w: World, clock: nat, b: Request, other: Id) returns (evs: seq<Event>)
    requires b.UpdateVan? && b.newPlate.None? && b.driverOpt.Some? && b.newActive == Some(true) && Accepts(w, b)
    requires other in w.vans && other != b.van && OnDuty(w.vans[other]) && w.vans[other].school == b.school
    requires w.vans[b.van].driver.Some? && w.vans[other].driver == w.vans[b.van].driver
    ensures Cautious(Touch(b.school, b.van)) && Cautious(b) && b.driverOpt != w.vans[b.van].driver
    ensures !OneVanPerDriver(Run(Quiet(w, clock), evs).world)
  {
    hide Call, Run;
    var s, a, v := Quiet(w, clock), Touch(b.school, b.van), b.van;
    var l := FRESH_LOCALS.(plate := w.vans[v].plate, driver := w.vans[v].driver);
    evs := [Arrive(0, a), Arrive(1, b)];
    BothArrive(s, evs, a, b);
    assert evs[..2] == evs;
    TouchCalls(w, b.school, v, l, clock + 1);
    evs := Moves(s, evs, 0, w, l);
    evs := OnDutyRuns(s, evs, 1, b);
    evs := TouchRuns(s, evs, 0, b.school, v, l);
    var w2 := Run(s, evs).world;
    assert w2.vans[other].driver == w2.vans[v].driver;
  }
}
