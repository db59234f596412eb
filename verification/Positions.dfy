// The cached positions, whatever interleaves: each is what the latest step that reports a position left.
module Positions {
  import opened Options
  import opened Schema
  import opened Handlers
  import opened Machine
  import opened Frames
  import opened Isolation
  import opened ActiveTrips

  datatype Report = Report(id: Id, school: Id, loc: Location)

  // start, end, pickup and drop report for the trip's van and then, through recordLocation, under the
  // trip's own id; an SOS reports for the van if it carries a position.
  function Reported(w: World, th: Thread): Option<Report>
  {
    if !NamesTrip(th.req) || th.req.trip !in w.trips then None
    else
      var van := w.trips[th.req.trip].van;
      match th.req
      case StartTrip(school, _, t, loc) =>
        if th.k == 2 then Some(Report(van, school, loc)) else if th.k == 3 then Some(Report(t, school, loc)) else None
      case EndTrip(school, _, t, loc) =>
        if th.k == 2 then Some(Report(van, school, loc)) else if th.k == 3 then Some(Report(t, school, loc)) else None
      case MarkBoarding(school, _, t, _, _, _, loc) =>
        if th.k == 5 then Some(Report(van, school, loc)) else if th.k == 6 then Some(Report(t, school, loc)) else None
      case ActivateSOS(school, _, t, Some(loc)) => if th.k == 2 then Some(Report(van, school, loc)) else None
      case _ => None
  }

  function ReportOf(s: Sys, ev: Event): Option<Report> {
    if Calls(s, ev) then Reported(s.world, s.flight[ev.id])
    else if ev.Ping? && VanIn(s.world, ev.van, ev.school) then Some(Report(ev.van, ev.school, ev.loc))
    else None
  }

  // The latest report for an id in a run, with the time to live it was stored with; before any, what was there.
  function LatestFix(s: Sys, evs: seq<Event>, id: Id): Option<Fix> {
    if evs == [] then (if id in s.world.fixes then Some(s.world.fixes[id]) else None)
    else
      var n := |evs| - 1;
      var r := ReportOf(Run(s, evs[..n]), evs[n]);
      if r.Some? && r.value.id == id
      then Some(Fix(r.value.school, r.value.loc, Run(s, evs).clock + LOCATION_TTL))
      else LatestFix(s, evs[..n], id)
  }

  // A handler past its first call remembers the van of its trip.
  predicate KnowsVan(w: World, th: Thread) {
    NamesTrip(th.req) && th.k >= 1 ==> th.req.trip in w.trips && th.locals.van == w.trips[th.req.trip].van
  }

  predicate AllKnowVans(s: Sys) {
    forall id <- s.flight :: KnowsVan(s.world, s.flight[id])
  }

  lemma CallKnowsVan(w: World, th: Thread, now: nat, newId: Id)
    requires th.Running() && NamesTrip(th.req) && KnowsVan(w, th)
    ensures var r := Call(w, th, now, newId);
            r.Next? ==> th.req.trip in w.trips && r.locals.van == w.trips[th.req.trip].van
  {
  }

  lemma TickKnowsVans(s: Sys, ev: Event)
    requires AllKnowVans(s)
    ensures AllKnowVans(Tick(s, ev))
  {
    hide Call, Length;
    if Calls(s, ev) {
      var th, now := s.flight[ev.id], s.clock + ev.elapsed;
      assert KnowsVan(s.world, th);
      RowsKeepIdentity(s.world, th, now, ev.newId);
      if NamesTrip(th.req) {
        CallKnowsVan(s.world, th, now, ev.newId);
      }
    }
  }

  lemma OpFixes(w: World, op: TripOp, l: Locals, school: Id, now: nat, newId: Id)
    ensures ExecTrip(w, op, l, school, now, newId).world.fixes
            == match op
               case SetVanFix(Some(loc)) => w.fixes[l.van := Fix(school, loc, now + LOCATION_TTL)]
               case SetTripFix(t, loc) => w.fixes[t := Fix(school, loc, now + LOCATION_TTL)]
               case _ => w.fixes
  {
  }

  lemma PersonOpFixes(w: World, op: PersonOp, l: Locals, school: Id, newId: Id)
    ensures ExecPerson(w, op, l, school, newId).world.fixes == w.fixes
  {
  }

  lemma FixesEffect(w: World, th: Thread, now: nat, newId: Id)
    requires th.Running() && KnowsVan(w, th)
    ensures var r := Reported(w, th);
            Call(w, th, now, newId).world.fixes == if r.None? then w.fixes
              else w.fixes[r.value.id := Fix(r.value.school, r.value.loc, now + LOCATION_TTL)]
  {
    if OfTrips(th.req) {
      OpFixes(w, TripProgram(th.req)[th.k], th.locals, th.req.school, now, newId);
      hide ExecTrip;
    } else if OfVans(th.req) {
      VanFrame(w, VanProgram(th.req)[th.k], th.locals, th.req.school, newId);
      hide ExecVan, VanProgram;
    } else {
      PersonOpFixes(w, PersonProgram(th.req)[th.k], th.locals, th.req.school, newId);
      hide ExecPerson, PersonProgram;
    }
  }

  lemma TickFixes(s: Sys, ev: Event, id: Id)
    requires AllKnowVans(s)
    ensures var r, s' := ReportOf(s, ev), Tick(s, ev);
            if r.Some? && r.value.id == id
            then id in s'.world.fixes && s'.world.fixes[id] == Fix(r.value.school, r.value.loc, s'.clock + LOCATION_TTL)
            else (id in s'.world.fixes <==> id in s.world.fixes) &&
                 (id in s.world.fixes ==> s'.world.fixes[id] == s.world.fixes[id])
  {
    hide Call, Length;
    if Calls(s, ev) {
      var th := s.flight[ev.id];
      assert KnowsVan(s.world, th);
      FixesEffect(s.world, th, s.clock + ev.elapsed, ev.newId);
    }
  }

  lemma {:induction false} CacheHoldsLatest(s: Sys, evs: seq<Event>, id: Id)
    requires AllKnowVans(s)
    ensures AllKnowVans(Run(s, evs))
    ensures var fixes := Run(s, evs).world.fixes;
            LatestFix(s, evs, id) == if id in fixes then Some(fixes[id]) else None
  {
    hide Tick, ReportOf;
    if evs != [] {
      var n := |evs| - 1;
      CacheHoldsLatest(s, evs[..n], id);
      TickKnowsVans(Run(s, evs[..n]), evs[n]);
      TickFixes(Run(s, evs[..n]), evs[n], id);
    }
  }

  // What getVanLocation finds: the cached position until its time to live is over.
  function VanLocation(w: World, id: Id, now: nat): Option<Location> {
    if id in w.fixes && now < w.fixes[id].expires then Some(w.fixes[id].loc) else None
  }

  // At any moment of any run, a van's position is that of the latest report for it, if that is younger
  // than the time to live, and nothing otherwise.
  lemma LocationIsTheLatestReport(s: Sys, evs: seq<Event>, id: Id, now: nat)
    requires s.flight == map[]
    ensures var last := LatestFix(s, evs, id);
            VanLocation(Run(s, evs).world, id, now)
            == if last.Some? && now < last.value.expires then Some(last.value.loc) else None
  {
    CacheHoldsLatest(s, evs, id);
  }

  // ---- positions and schools ----

  // Trip ids and van ids share the position keys.
  ghost predicate IdsDisjoint(w: World) {
    forall x: Id :: !(x in w.trips && x in w.vans)
  }

  // A position carries the school of the van or trip it is stored under.
  ghost predicate FixesClosed(w: World) {
    forall x | x in w.fixes :: VanIn(w, x, w.fixes[x].school) || TripIn(w, x, w.fixes[x].school)
  }

  ghost function FixesOf(w: World, school: Id): map<Id, Fix> {
    map x | x in w.fixes && w.fixes[x].school == school :: w.fixes[x]
  }

  // The reporter is of the school of the id it reports for.
  lemma ReportsStayHome(s: Sys, ev: Event)
    requires Sound(s)
    ensures var r := ReportOf(s, ev);
            r.Some? ==> VanIn(s.world, r.value.id, r.value.school) || TripIn(s.world, r.value.id, r.value.school)
    ensures var r := ReportOf(s, ev);
            r.Some? ==> r.value.school == if ev.Ping? then ev.school else s.flight[ev.id].req.school
  {
    hide Call, Length;
    if Calls(s, ev) {
      var th := s.flight[ev.id];
      assert Learnt(s.world, th);
      if th.k >= 1 && NamesTrip(th.req) {
        assert TripIn(s.world, th.req.trip, th.req.school);
      }
    }
  }

  lemma TickRowsGrow(s: Sys, ev: Event)
    requires Sound(s)
    ensures Grows(s.world, Tick(s, ev).world)
  {
    hide Call, Closed, Learnt;
    if Calls(s, ev) {
      CallIsSound(s.world, s.flight[ev.id], s.clock + ev.elapsed, ev.newId);
    } else {
      IdleChangesLittle(s, ev);
      SameRowsClosed(s.world, Tick(s, ev).world);
    }
  }

  lemma TickStaysLocated(s: Sys, ev: Event)
    requires Sound(s) && AllKnowVans(s) && FixesClosed(s.world)
    ensures FixesClosed(Tick(s, ev).world)
  {
    hide Tick, ReportOf, Sound;
    ReportsStayHome(s, ev);
    TickRowsGrow(s, ev);
    var w' := Tick(s, ev).world;
    forall x | x in w'.fixes ensures VanIn(w', x, w'.fixes[x].school) || TripIn(w', x, w'.fixes[x].school) {
      TickFixes(s, ev, x);
    }
  }

  lemma TickLeavesPositions(s: Sys, ev: Event, school: Id)
    requires Sound(s) && AllKnowVans(s) && FixesClosed(s.world) && IdsDisjoint(s.world)
    requires ev.Ping? ==> ev.school != school
    requires Calls(s, ev) ==> s.flight[ev.id].req.school != school
    ensures FixesOf(Tick(s, ev).world, school) == FixesOf(s.world, school)
  {
    hide Tick, ReportOf, Sound;
    ReportsStayHome(s, ev);
    var w, w' := s.world, Tick(s, ev).world;
    NoReportOtherwise(s, ev);
    forall x: Id
      ensures x in w'.fixes && w'.fixes[x].school == school <==> x in w.fixes && w.fixes[x].school == school
      ensures x in w.fixes && w.fixes[x].school == school ==> w'.fixes[x] == w.fixes[x]
    {
      TickFixes(s, ev, x);
    }
  }

  lemma NoReportOtherwise(s: Sys, ev: Event)
    ensures ReportOf(s, ev).Some? ==> Calls(s, ev) || ev.Ping?
  {
  }

  // Requests and pings of other schools move none of a school's cached positions, as long as no id is
  // both a trip's and a van's.
  lemma {:induction false} OtherSchoolsMoveNoPosition(w: World, clock: nat, evs: seq<Event>, school: Id)
    requires Closed(w) && FixesClosed(w) && NoneFrom(evs, school)
    requires forall i | 0 <= i <= |evs| :: IdsDisjoint(Run(Quiet(w, clock), evs[..i]).world)
    ensures var w' := Run(Quiet(w, clock), evs).world;
            FixesClosed(w') && FixesOf(w', school) == FixesOf(w, school)
  {
    hide Tick, IdsDisjoint, FixesClosed, FixesOf, Sound, AllKnowVans, SameFor, Closed;
    if evs == [] {
      assert evs[..0] == [];
    } else {
      var n, s0 := |evs| - 1, Quiet(w, clock);
      var before := evs[..n];
      assert forall i | 0 <= i <= n :: before[..i] == evs[..i];
      OtherSchoolsMoveNoPosition(w, clock, before, school);
      ReferencesStayInSchool(w, clock, before);
      OtherSchoolsTouchNothing(w, clock, before, school);
      QuietKnowsVans(w, clock);
      CacheHoldsLatest(s0, before, 0);
      assert IdsDisjoint(Run(s0, evs[..n]).world);
      TickStaysLocated(Run(s0, before), evs[n]);
      TickLeavesPositions(Run(s0, before), evs[n], school);
    }
  }

  lemma QuietKnowsVans(w: World, clock: nat)
    ensures AllKnowVans(Quiet(w, clock))
  {
  }
}
