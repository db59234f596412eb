// Any number of requests in flight at once: each has made some of its calls, and the next call of
// any of them may come at any time. Drivers' position pings come in between.
module Machine {
  import opened Schema
  import opened Handlers

  datatype Event =
    | Arrive(id: Id, req: Request)
    | Advance(id: Id, elapsed: nat, newId: Id)
    | Ping(van: Id, school: Id, loc: Location, elapsed: nat)

  // Finished requests keep their answer.
  datatype Sys = Sys(world: World, flight: map<Id, Thread>, answers: map<Id, Response>, clock: nat)

  function Quiet(w: World, clock: nat): Sys {
    Sys(w, map[], map[], clock)
  }

  // The event makes a handler's next call.
  predicate Calls(s: Sys, ev: Event) {
    ev.Advance? && ev.id in s.flight && s.flight[ev.id].Running()
  }

  // The call of thread id answered r at time now.
  function After(s: Sys, id: Id, r: Step, now: nat): Sys
    requires id in s.flight
  {
    var th := s.flight[id];
    match r
    case Stop(w', answer) => Sys(w', s.flight - {id}, s.answers[id := answer], now)
    case Next(w', l') =>
      var th' := Later(th, r);
      if th'.Running() then Sys(w', s.flight[id := th'], s.answers, now)
      else Sys(w', s.flight - {id}, s.answers[id := l'.answer], now)
  }

  function Tick(s: Sys, ev: Event): Sys {
    match ev
    case Arrive(id, req) =>
      if id in s.flight || id in s.answers then s else s.(flight := s.flight[id := Opened(req)])
    case Advance(id, elapsed, newId) =>
      var now := s.clock + elapsed;
      if Calls(s, ev) then After(s, id, Call(s.world, s.flight[id], now, newId), now)
      else s.(clock := now)
    case Ping(van, school, loc, elapsed) => Pinged(s, van, school, loc, s.clock + elapsed)
  }

  // The socket gateway stores a ping of a driver under the van. It lets through only vans the driver had
  // when it connected, which are vans of the driver's school.
  function Pinged(s: Sys, van: Id, school: Id, loc: Location, now: nat): Sys {
    if VanIn(s.world, van, school)
    then s.(world := s.world.(fixes := s.world.fixes[van := Fix(school, loc, now + LOCATION_TTL)]), clock := now)
    else s.(clock := now)
  }

  function Run(s: Sys, evs: seq<Event>): Sys {
    if evs == [] then s else Tick(Run(s, evs[..|evs| - 1]), evs[|evs| - 1])
  }

  // An event that is no call of a handler changes no row and no handler in flight; at most a request
  // arrives or a position is stored.
  lemma IdleChangesLittle(s: Sys, ev: Event)
    requires !Calls(s, ev)
    ensures var s' := Tick(s, ev);
            s'.world == s.world.(fixes := s'.world.fixes) && s'.answers == s.answers && s.clock <= s'.clock &&
            (s'.flight == s.flight || (ev.Arrive? && ev.id !in s.flight && s'.flight == s.flight[ev.id := Opened(ev.req)]))
  {
  }
}
