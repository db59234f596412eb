// A handler served alone is the run in which nothing else is in flight, so what is proved of clean
// runs holds of the service methods.
module Serial {
  import opened Options
  import opened Schema
  import opened Handlers
  import opened TripOutcomes
  import opened Machine
  import opened Lifecycle
  import opened Overlap

  ghost predicate OnlyThread(s: Sys, id: Id) {
    forall o | o in s.flight :: o == id
  }

  lemma AdvanceAlone(s: Sys, id: Id, newId: Id)
    requires id in s.flight && s.flight[id].Running() && OnlyThread(s, id)
    ensures var r, s' := Call(s.world, s.flight[id], s.clock, newId), Tick(s, Advance(id, 0, newId));
            if r.Next? && Later(s.flight[id], r).Running()
            then s' == Sys(r.world, s.flight[id := Later(s.flight[id], r)], s.answers, s.clock) && OnlyThread(s', id)
            else s' == Sys(r.world, map[], s.answers[id := if r.Next? then r.locals.answer else r.answer], s.clock)
  {
    hide Call, Length;
    assert s.flight - {id} == map[];
  }

  lemma {:induction false} DriveIsARun(s: Sys, id: Id, newId: Id) returns (evs: seq<Event>)
    requires id in s.flight && s.flight[id].Running() && OnlyThread(s, id)
    ensures var out := Drive(s.world, s.flight[id], s.clock, newId);
            Run(s, evs) == Sys(out.0, map[], s.answers[id := out.1], s.clock)
    ensures CleanRun(s, evs)
    decreases Length(s.flight[id].req) - s.flight[id].k
  {
    hide Call, Length, Tick, Run, CleanRun, Drive;
    var ev := Advance(id, 0, newId);
    AdvanceAlone(s, id, newId);
    DriveEnds(s.world, s.flight[id], s.clock, newId);
    OneEvent(s, ev);
    var r := Call(s.world, s.flight[id], s.clock, newId);
    if r.Next? && Later(s.flight[id], r).Running() {
      var rest := DriveIsARun(Tick(s, ev), id, newId);
      RunJoins(s, [ev], rest);
      CleanJoins(s, ev, rest);
      evs := [ev] + rest;
    } else {
      evs := [ev];
    }
  }

  lemma OneEvent(s: Sys, ev: Event)
    requires ev.Advance? && OnlyThread(s, ev.id)
    ensures Run(s, [ev]) == Tick(s, ev) && CleanRun(s, [ev])
  {
    hide Tick;
    assert [ev] == [] + [ev] && [ev][..0] == [];
    RunOn(s, [], ev);
    AloneIsClean(s, ev);
  }

  lemma DriveEnds(w: World, th: Thread, now: nat, newId: Id)
    requires th.Running()
    ensures var r := Call(w, th, now, newId);
            Drive(w, th, now, newId) ==
            match r
            case Stop(w', a) => (w', a)
            case Next(w', l) => if Later(th, r).Running() then Drive(w', Later(th, r), now, newId) else (w', l.answer)
  {
    hide Call, Length;
  }

  lemma CleanJoins(s: Sys, ev: Event, rest: seq<Event>)
    requires ev.Advance? && OnlyThread(s, ev.id) && CleanRun(Tick(s, ev), rest)
    ensures CleanRun(s, [ev] + rest)
  {
    hide Tick, CleanStep;
    var evs := [ev] + rest;
    assert Run(s, [ev]) == Tick(s, ev) by {
      assert [ev] == [] + [ev];
      RunOn(s, [], ev);
    }
    forall i | 0 <= i < |evs|
      ensures CleanStep(Run(s, evs[..i]), evs[i])
    {
      if i == 0 {
        assert evs[..0] == [];
        AloneIsClean(s, ev);
      } else {
        assert evs[..i] == [ev] + rest[..i - 1];
        RunJoins(s, [ev], rest[..i - 1]);
      }
    }
  }

  lemma AloneIsClean(s: Sys, ev: Event)
    requires ev.Advance? && OnlyThread(s, ev.id)
    ensures CleanStep(s, ev)
  {
  }

  lemma ServeIsARun(w: World, req: Request, clock: nat, newId: Id) returns (evs: seq<Event>)
    ensures var out := Serve(w, req, clock, newId);
            Run(Quiet(w, clock), evs) == Sys(out.0, map[], map[0 := out.1], clock)
    ensures CleanRun(Quiet(w, clock), evs)
  {
    hide Call, Drive, CleanRun, Run;
    var s := Quiet(w, clock);
    var s1 := Tick(s, Arrive(0, req));
    RequestsAreLong(req);
    var rest := DriveIsARun(s1, 0, newId);
    ArrivalJoins(w, clock, req, rest);
    evs := [Arrive(0, req)] + rest;
  }

  lemma RequestsAreLong(req: Request)
    ensures Length(req) > 0
  {
  }

  lemma ArrivalJoins(w: World, clock: nat, req: Request, rest: seq<Event>)
    requires CleanRun(Tick(Quiet(w, clock), Arrive(0, req)), rest)
    ensures var s, evs := Quiet(w, clock), [Arrive(0, req)] + rest;
            Run(s, evs) == Run(Tick(s, Arrive(0, req)), rest) && CleanRun(s, evs)
  {
    hide Call, CleanStep, Tick;
    var s, ev := Quiet(w, clock), Arrive(0, req);
    var evs := [ev] + rest;
    assert [ev] == [] + [ev];
    RunOn(s, [], ev);
    RunJoins(s, [ev], rest);
    forall i | 0 <= i < |evs|
      ensures CleanStep(Run(s, evs[..i]), evs[i])
    {
      if i > 0 {
        assert evs[..i] == [ev] + rest[..i - 1];
        RunJoins(s, [ev], rest[..i - 1]);
      } else {
        ArrivalIsClean(s, ev);
      }
    }
  }

  lemma ArrivalIsClean(s: Sys, ev: Event)
    requires ev.Arrive?
    ensures forall at: Sys :: CleanStep(at, ev)
  {
  }

  lemma SosAlone(w: World, t: Id, now: nat)
    requires StatusIs(w, t, NOT_STARTED) && !w.trips[t].deleted
    ensures var row := w.trips[t];
            Serve(w, ActivateSOS(row.school, row.driver, t, None), now, 0).0.trips == w.trips[t := row.(status := SOS_ACTIVE)]
  {
    hide Serve;
    var row := w.trips[t];
    ActivateSosOutcome(w, row.school, row.driver, t, None, now, 0);
  }

  lemma ResumeAlone(w: World, t: Id, now: nat)
    requires StatusIs(w, t, SOS_ACTIVE) && !w.trips[t].deleted
    ensures var row := w.trips[t];
            Serve(w, ResolveSOS(row.school, row.driver, t, true), now, 0).0.trips == w.trips[t := row.(status := IN_PROGRESS)]
  {
    hide Serve;
    var row := w.trips[t];
    ResolveSosOutcome(w, row.school, row.driver, t, true, now, 0);
  }

  // Every trip that has not started can be brought under way without a start time: by an SOS and its
  // resolution.
  lemma StartSkippedThroughSos(w: World, t: Id, now: nat, later: nat)
    requires StatusIs(w, t, NOT_STARTED) && !w.trips[t].deleted && w.trips[t].actualStart.None?
    ensures var row := w.trips[t];
            var w1 := Serve(w, ActivateSOS(row.school, row.driver, t, None), now, 0).0;
            var w2 := Serve(w1, ResolveSOS(row.school, row.driver, t, true), later, 0).0;
            StatusIs(w2, t, IN_PROGRESS) && Skipped(w2, t)
  {
    hide Serve;
    var row := w.trips[t];
    SosAlone(w, t, now);
    ResumeAlone(Serve(w, ActivateSOS(row.school, row.driver, t, None), now, 0).0, t, later);
  }

  // Served one at a time, requests keep the life of every trip lawful.
  lemma ServeKeepsLawful(w: World, req: Request, now: nat, newId: Id)
    requires LawfulStart(w)
    ensures LawfulStart(Serve(w, req, now, newId).0)
  {
    var evs := ServeIsARun(w, req, now, newId);
    CleanRunsAreLawful(w, now, evs);
    var s := Run(Quiet(w, now), evs);
    hide Run, Serve;
    forall t
      ensures Count(s.world.alerts, t, SOS) == Count(s.world.alerts, t, SOS_RESOLVED) + One(InSos(s.world, t))
    {
      SettledTripBalances(s, t);
    }
  }
}
