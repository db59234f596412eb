// The ordered stops of a route: rows of one table with a stopOrder, replaced by delete and create, read
// back by the database in stopOrder. The table keeps its rows in no particular order.
module RouteStops {
  import opened Options

  type Id = nat
  type Stop = nat

  datatype StopRow = StopRow(route: Id, order: nat, stop: Stop)

  datatype Route = Route(school: Id, deleted: bool)

  datatype Answer = Stops(stops: seq<Stop>) | NotFound

  // deleteMany where routeId
  function Without(rows: seq<StopRow>, route: Id): seq<StopRow> {
    if rows == [] then []
    else (if rows[0].route == route then [] else [rows[0]]) + Without(rows[1..], route)
  }

  // stops.map((stop, index) => ({ stopOrder: index + 1, ... }))
  function Numbered(route: Id, stops: seq<Stop>): seq<StopRow> {
    seq(|stops|, i requires 0 <= i < |stops| => StopRow(route, i + 1, stops[i]))
  }

  predicate Ascending(rows: seq<StopRow>) {
    forall i, j | 0 <= i < j < |rows| :: rows[i].order <= rows[j].order
  }

  // found is an answer of findMany where routeId, orderBy stopOrder: ties come in any order.
  ghost predicate Finds(rows: seq<StopRow>, route: Id, found: seq<StopRow>) {
    && Ascending(found)
    && forall r: StopRow :: multiset(found)[r] == if r.route == route then multiset(rows)[r] else 0
  }

  // The rows of every route are its list numbered from 1, in whatever order.
  ghost predicate Stores(rows: seq<StopRow>, lists: map<Id, seq<Stop>>) {
    forall r: StopRow :: multiset(rows)[r] ==
      if r.route in lists then multiset(Numbered(r.route, lists[r.route]))[r] else 0
  }

  lemma {:induction false} WithoutCounts(rows: seq<StopRow>, route: Id, r: StopRow)
    ensures multiset(Without(rows, route))[r] == if r.route == route then 0 else multiset(rows)[r]
  {
    if rows != [] {
      WithoutCounts(rows[1..], route, r);
      assert rows == [rows[0]] + rows[1..];
    }
  }

  // Every row of a numbered list occurs once, in its place.
  lemma {:induction false} NumberedCounts(route: Id, stops: seq<Stop>, r: StopRow)
    ensures multiset(Numbered(route, stops))[r]
            == if r.route == route && 1 <= r.order <= |stops| && stops[r.order - 1] == r.stop then 1 else 0
  {
    var rows := Numbered(route, stops);
    if stops != [] {
      var n := |stops| - 1;
      NumberedCounts(route, stops[..n], r);
      assert rows == Numbered(route, stops[..n]) + [rows[n]];
    }
  }

  lemma WriteStores(rows: seq<StopRow>, lists: map<Id, seq<Stop>>, route: Id, stops: seq<Stop>)
    requires Stores(rows, lists)
    ensures Stores(Without(rows, route) + Numbered(route, stops), lists[route := stops])
  {
    var rows', lists' := Without(rows, route) + Numbered(route, stops), lists[route := stops];
    forall r: StopRow
      ensures multiset(rows')[r] == if r.route in lists' then multiset(Numbered(r.route, lists'[r.route]))[r] else 0
    {
      WithoutCounts(rows, route, r);
      NumberedCounts(route, stops, r);
    }
  }

  predicate SameRows(found: seq<StopRow>, rows: seq<StopRow>) {
    multiset(found) == multiset(rows)
  }

  lemma NotEarlier(route: Id, stops: seq<Stop>, found: seq<StopRow>, k: nat)
    requires k < |found| && SameRows(found, Numbered(route, stops))
    requires k <= |stops| && found[..k] == Numbered(route, stops)[..k]
    ensures found[k].route == route && k < found[k].order <= |stops| && stops[found[k].order - 1] == found[k].stop
  {
    assert found[k] in multiset(found);
    NumberedCounts(route, stops, found[k]);
    var m := found[k].order - 1;
    if m < k {
      OccursTwice(found, m, k);
    }
  }

  lemma NotLater(route: Id, stops: seq<Stop>, found: seq<StopRow>, k: nat) returns (i: nat)
    requires k < |stops| && SameRows(found, Numbered(route, stops))
    requires k <= |found| && found[..k] == Numbered(route, stops)[..k]
    ensures k <= i < |found| && found[i].order == k + 1
  {
    var r := Numbered(route, stops)[k];
    NumberedCounts(route, stops, r);
    assert r in multiset(found);
    i :| 0 <= i < |found| && found[i] == r;
  }

  // An ascending arrangement of the rows of a numbered list is that list, place by place.
  lemma {:induction false} AscendingPlaces(route: Id, stops: seq<Stop>, found: seq<StopRow>, k: nat)
    requires Ascending(found) && k <= |found| && SameRows(found, Numbered(route, stops))
    ensures k <= |stops| && found[..k] == Numbered(route, stops)[..k]
  {
    hide SameRows;
    if k > 0 {
      AscendingPlaces(route, stops, found, k - 1);
      NotEarlier(route, stops, found, k - 1);
      var i := NotLater(route, stops, found, k - 1);
      assert found[k - 1].order <= found[i].order;
      assert found[..k] == found[..k - 1] + [found[k - 1]];
    }
  }

  lemma OccursTwice(rows: seq<StopRow>, i: nat, j: nat)
    requires i < j < |rows|
    ensures rows[i] == rows[j] ==> multiset(rows)[rows[i]] >= 2
  {
    assert rows == rows[..i] + [rows[i]] + rows[i + 1..j] + [rows[j]] + rows[j + 1..];
  }

  // Whatever order the table keeps, a stored list reads back in order.
  lemma StoredListReadsBack(rows: seq<StopRow>, lists: map<Id, seq<Stop>>, route: Id, found: seq<StopRow>)
    requires Stores(rows, lists) && route in lists && Finds(rows, route, found)
    ensures found == Numbered(route, lists[route])
  {
    var stops := lists[route];
    var want := Numbered(route, stops);
    forall r: StopRow ensures multiset(found)[r] == multiset(want)[r] {
      NumberedCounts(route, stops, r);
    }
    AscendingPlaces(route, stops, found, |found|);
    assert found == found[..|found|];
    assert |multiset(found)| == |found| && |multiset(want)| == |want|;
  }

  // ---- any number of handlers in flight: an update deletes and then creates, a create only creates ----

  // An update past its check of the route, or a create past its route row; inserting once the insertion of
  // its stops is all that is left.
  datatype Write = Write(route: Id, stops: seq<Stop>, inserting: bool)

  datatype Sys = Sys(routes: set<Id>, rows: seq<StopRow>, flight: map<Id, Write>)

  // A create makes the row of its route at once; an update is refused for a route that has none.
  datatype Event = Create(id: Id, route: Id, stops: seq<Stop>) | Arrive(id: Id, route: Id, stops: seq<Stop>)
                 | Advance(id: Id)

  function Tick(s: Sys, ev: Event): Sys {
    match ev
    case Create(id, route, stops) =>
      if id in s.flight || route in s.routes then s
      else
        var s' := s.(routes := s.routes + {route});
        if stops == [] then s' else s'.(flight := s.flight[id := Write(route, stops, true)])
    case Arrive(id, route, stops) =>
      if id in s.flight || route !in s.routes then s
      else s.(flight := s.flight[id := Write(route, stops, false)])
    case Advance(id) =>
      if id !in s.flight then s
      else
        var u := s.flight[id];
        if u.inserting then s.(rows := s.rows + Numbered(u.route, u.stops), flight := s.flight - {id})
        else
          var flight := if u.stops == [] then s.flight - {id} else s.flight[id := u.(inserting := true)];
          s.(rows := Without(s.rows, u.route), flight := flight)
  }

  function Run(s: Sys, evs: seq<Event>): Sys {
    if evs == [] then s else Tick(Run(s, evs[..|evs| - 1]), evs[|evs| - 1])
  }

  // What one more event keeps of the lists kept so far.
  function KeptAfter(at: Sys, kept: seq<seq<Stop>>, ev: Event, route: Id): seq<seq<Stop>> {
    if ev.Advance? && ev.id in at.flight && at.flight[ev.id].route == route
    then if at.flight[ev.id].inserting then kept + [at.flight[ev.id].stops] else []
    else kept
  }

  // The lists created on a route since it was last emptied, in order; at the start, the given ones.
  function Kept(s: Sys, start: seq<seq<Stop>>, evs: seq<Event>, route: Id): seq<seq<Stop>> {
    if evs == [] then start
    else
      var n := |evs| - 1;
      KeptAfter(Run(s, evs[..n]), Kept(s, start, evs[..n], route), evs[n], route)
  }

  function Flat(route: Id, lists: seq<seq<Stop>>): seq<StopRow> {
    if lists == [] then [] else Flat(route, lists[..|lists| - 1]) + Numbered(route, lists[|lists| - 1])
  }

  // The route's rows are those of the lists, in whatever order.
  ghost predicate Holds(rows: seq<StopRow>, route: Id, lists: seq<seq<Stop>>) {
    forall r: StopRow | r.route == route :: multiset(rows)[r] == multiset(Flat(route, lists))[r]
  }

  lemma TickHolds(s: Sys, ev: Event, route: Id, lists: seq<seq<Stop>>)
    requires Holds(s.rows, route, lists)
    ensures var s' := Tick(s, ev);
            Holds(s'.rows, route, KeptAfter(s, lists, ev, route))
  {
    if ev.Advance? && ev.id in s.flight {
      var u := s.flight[ev.id];
      forall r: StopRow | r.route == route
        ensures multiset(Without(s.rows, u.route))[r] == if u.route == route then 0 else multiset(s.rows)[r]
        ensures u.route != route ==> multiset(Numbered(u.route, u.stops))[r] == 0
      {
        WithoutCounts(s.rows, u.route, r);
        NumberedCounts(u.route, u.stops, r);
      }
      assert (lists + [u.stops])[..|lists|] == lists;
    }
  }

  lemma {:induction false} RunHolds(s: Sys, start: seq<seq<Stop>>, evs: seq<Event>, route: Id)
    requires Holds(s.rows, route, start)
    ensures Holds(Run(s, evs).rows, route, Kept(s, start, evs, route))
  {
    hide Holds, Tick;
    if evs != [] {
      var n := |evs| - 1;
      RunHolds(s, start, evs[..n], route);
      TickHolds(Run(s, evs[..n]), evs[n], route, Kept(s, start, evs[..n], route));
    }
  }

  function Last(lists: seq<seq<Stop>>): seq<Stop> {
    if lists == [] then [] else lists[|lists| - 1]
  }

  function Total(lists: seq<seq<Stop>>): nat {
    if lists == [] then 0 else Total(lists[..|lists| - 1]) + |lists[|lists| - 1]|
  }

  predicate OthersEmpty(lists: seq<seq<Stop>>) {
    forall i | 0 <= i < |lists| - 1 :: lists[i] == []
  }

  lemma {:induction false} TotalZero(lists: seq<seq<Stop>>)
    ensures Total(lists) == 0 <==> forall i | 0 <= i < |lists| :: lists[i] == []
  {
    if lists != [] {
      var init := lists[..|lists| - 1];
      TotalZero(init);
      assert forall i | 0 <= i < |init| :: init[i] == lists[i];
    }
  }

  lemma {:induction false} FlatRows(route: Id, lists: seq<seq<Stop>>)
    ensures |Flat(route, lists)| == Total(lists)
    ensures forall r <- Flat(route, lists) :: r.route == route
    ensures Total(lists) == |Last(lists)| <==> OthersEmpty(lists)
  {
    if lists != [] {
      var init := lists[..|lists| - 1];
      FlatRows(route, init);
      TotalZero(init);
      assert forall i | 0 <= i < |init| :: init[i] == lists[i];
    }
  }

  lemma {:induction false} LoneListIsFlat(route: Id, lists: seq<seq<Stop>>)
    requires OthersEmpty(lists)
    ensures Flat(route, lists) == Numbered(route, Last(lists))
  {
    if |lists| >= 2 {
      var init := lists[..|lists| - 1];
      assert init[|init| - 1] == lists[|init| - 1] == [];
      LoneListIsFlat(route, init);
    }
  }

  // For every run of creates and updates of any routes: what getStops finds are the stops of all lists created on the
  // route since it was last emptied, and it is the list created last exactly when the others are empty.
  lemma LastListReadsBackIff(s: Sys, start: seq<seq<Stop>>, evs: seq<Event>, route: Id, found: seq<StopRow>)
    requires Holds(s.rows, route, start) && Finds(Run(s, evs).rows, route, found)
    ensures var kept := Kept(s, start, evs, route);
            |found| == Total(kept) && (found == Numbered(route, Last(kept)) <==> OthersEmpty(kept))
  {
    var kept := Kept(s, start, evs, route);
    var flat := Flat(route, kept);
    RunHolds(s, start, evs, route);
    FlatRows(route, kept);
    forall r: StopRow ensures multiset(found)[r] == multiset(flat)[r] {
      if r.route != route {
        assert r !in flat;
      }
    }
    assert multiset(found) == multiset(flat);
    assert |multiset(found)| == |found| && |multiset(flat)| == |flat|;
    if OthersEmpty(kept) {
      LoneListIsFlat(route, kept);
      AscendingPlaces(route, Last(kept), found, |found|);
      assert found == found[..|found|];
    }
  }

  // An update of the route is between its delete and its insertion, or a create before its insertion.
  predicate Between(s: Sys, id: Id, route: Id) {
    id in s.flight && s.flight[id].route == route && s.flight[id].inserting
  }

  // The event does not empty the route while another handler is about to insert its stops.
  ghost predicate Apart(s: Sys, ev: Event, route: Id) {
    ev.Advance? && ev.id in s.flight && s.flight[ev.id].route == route && !s.flight[ev.id].inserting ==>
      forall id: Id | id != ev.id :: !Between(s, id, route)
  }

  ghost predicate Separate(s: Sys, evs: seq<Event>, route: Id) {
    forall i | 0 <= i < |evs| :: Apart(Run(s, evs[..i]), evs[i], route)
  }

  // One list at most is kept, and none while a handler is about to insert its own or the route is not made.
  ghost predicate OneKept(s: Sys, kept: seq<seq<Stop>>, route: Id) {
    && |kept| <= 1
    && (forall id: Id | Between(s, id, route) :: kept == [] && route in s.routes)
    && (forall a: Id, b: Id | Between(s, a, route) && Between(s, b, route) :: a == b)
    && (route !in s.routes ==> kept == [])
    && forall id <- s.flight | s.flight[id].route == route :: route in s.routes
  }

  lemma TickKeepsOne(s: Sys, ev: Event, kept: seq<seq<Stop>>, route: Id)
    requires OneKept(s, kept, route) && Apart(s, ev, route)
    ensures OneKept(Tick(s, ev), KeptAfter(s, kept, ev, route), route)
  {
    var s' := Tick(s, ev);
    if ev.Advance? && ev.id in s.flight && s.flight[ev.id].route == route && s.flight[ev.id].inserting {
      assert Between(s, ev.id, route);
    }
    forall id: Id | Between(s', id, route) ensures id == ev.id || Between(s, id, route) {
    }
  }

  lemma {:induction false} SeparateUpdatesKeepOne(s: Sys, start: seq<seq<Stop>>, evs: seq<Event>, route: Id)
    requires s.flight == map[] && |start| <= 1 && (route !in s.routes ==> start == []) && Separate(s, evs, route)
    ensures OneKept(Run(s, evs), Kept(s, start, evs, route), route)
  {
    if evs != [] {
      hide Tick, Apart, OneKept;
      var n := |evs| - 1;
      assert forall i | 0 <= i <= n :: evs[..n][..i] == evs[..i];
      SeparateUpdatesKeepOne(s, start, evs[..n], route);
      assert Apart(Run(s, evs[..n]), evs[n], route);
      TickKeepsOne(Run(s, evs[..n]), evs[n], Kept(s, start, evs[..n], route), route);
    }
  }

  // Updates that keep apart in that sense read back, whatever else is in flight.
  lemma SeparateUpdatesReadBack(s: Sys, start: seq<seq<Stop>>, evs: seq<Event>, route: Id, found: seq<StopRow>)
    requires s.flight == map[] && |start| <= 1 && (route !in s.routes ==> start == []) && Holds(s.rows, route, start) && Separate(s, evs, route)
    requires Finds(Run(s, evs).rows, route, found)
    ensures found == Numbered(route, Last(Kept(s, start, evs, route)))
  {
    SeparateUpdatesKeepOne(s, start, evs, route);
    LastListReadsBackIff(s, start, evs, route, found);
  }

  function BothDeleteThenCreate(route: Id, a: seq<Stop>, b: seq<Stop>): seq<Event> {
    [Arrive(0, route, a), Arrive(1, route, b), Advance(0), Advance(1), Advance(0), Advance(1)]
  }

  // Two updates of one route that both delete before either creates leave the stops of both, so that
  // neither list reads back unless the other is empty.
  lemma OverlappingUpdatesKeepBoth(rows: seq<StopRow>, start: seq<Stop>, route: Id, a: seq<Stop>, b: seq<Stop>,
                                   found: seq<StopRow>)
    requires Holds(rows, route, [start])
    requires Finds(Run(Sys({route}, rows, map[]), BothDeleteThenCreate(route, a, b)).rows, route, found)
    ensures |found| == |a| + |b|
    ensures found == Numbered(route, a) <==> b == []
  {
    hide Total, Holds, Run, Kept, BothDeleteThenCreate;
    var s, evs := Sys({route}, rows, map[]), BothDeleteThenCreate(route, a, b);
    LastListReadsBackIff(s, [start], evs, route, found);
    BothRun(s, [start], route, a, b);
    PairTotal(a, b);
    assert b == [] ==> One(a) + One(b) == One(a);
  }

  lemma OneTotal(a: seq<Stop>)
    ensures Total(One(a)) == |a|
  {
    assert [a][..0] == [];
  }

  lemma PairTotal(a: seq<Stop>, b: seq<Stop>)
    ensures Total(One(a) + One(b)) == |a| + |b|
  {
    var lists := One(a) + One(b);
    OneTotal(a);
    if b == [] {
      assert lists == One(a);
    } else {
      assert lists == One(a) + [b] && lists[..|lists| - 1] == One(a) && lists[|lists| - 1] == b;
      assert Total(lists) == Total(One(a)) + |b|;
    }
  }

  // What an update that is not disturbed keeps.
  function One(stops: seq<Stop>): seq<seq<Stop>> {
    if stops == [] then [] else [stops]
  }

  lemma RunOn(s: Sys, start: seq<seq<Stop>>, evs: seq<Event>, ev: Event, route: Id)
    ensures Run(s, evs + [ev]) == Tick(Run(s, evs), ev)
    ensures Kept(s, start, evs + [ev], route) == KeptAfter(Run(s, evs), Kept(s, start, evs, route), ev, route)
  {
    assert (evs + [ev])[..|evs|] == evs;
  }

  // An update that empties a new route before its create has inserted, and that ends first: both lists stay
  // and the create's is the last.
  function CreateUnderUpdate(route: Id, a: seq<Stop>, b: seq<Stop>): seq<Event> {
    [Create(0, route, a), Arrive(1, route, b), Advance(1), Advance(1), Advance(0)]
  }

  lemma UpdateInsideCreate(s: Sys, route: Id, a: seq<Stop>, b: seq<Stop>) returns (evs: seq<Event>)
    requires s.flight == map[] && route !in s.routes && a != [] && b != []
    ensures evs == [Create(0, route, a), Arrive(1, route, b), Advance(1), Advance(1)]
    ensures Kept(s, [], evs, route) == [b]
    ensures Run(s, evs).flight == Waiting(0, route, a)
  {
    hide Run, Kept, Without;
    RunNone(s, [], route);
    RunOn(s, [], [], Create(0, route, a), route);
    evs := [] + [Create(0, route, a)];
    RunOn(s, [], evs, Arrive(1, route, b), route);
    evs := evs + [Arrive(1, route, b)];
    assert Run(s, evs).flight == map[0 := Write(route, a, true), 1 := Write(route, b, false)];
    RunOn(s, [], evs, Advance(1), route);
    evs := evs + [Advance(1)];
    assert Run(s, evs).flight == map[0 := Write(route, a, true), 1 := Write(route, b, true)];
    RunOn(s, [], evs, Advance(1), route);
    evs := evs + [Advance(1)];
  }

  // So a new route reads back neither its first list nor that of the update made inside its create.
  lemma CreateOverlapsUpdate(s: Sys, route: Id, a: seq<Stop>, b: seq<Stop>, found: seq<StopRow>)
    requires s.flight == map[] && route !in s.routes && a != [] && b != [] && Holds(s.rows, route, [])
    requires Finds(Run(s, CreateUnderUpdate(route, a, b)).rows, route, found)
    ensures |found| == |a| + |b| && found != Numbered(route, a) && found != Numbered(route, b)
  {
    hide Total, Holds, Run, Kept, Tick;
    var evs := UpdateInsideCreate(s, route, a, b);
    RunOn(s, [], evs, Advance(0), route);
    assert CreateUnderUpdate(route, a, b) == evs + [Advance(0)];
    LastListReadsBackIff(s, [], evs + [Advance(0)], route, found);
    PairTotal(b, a);
    assert One(b) + One(a) == [b, a];
  }

  function Waiting(id: Id, route: Id, stops: seq<Stop>): map<Id, Write> {
    if stops == [] then map[] else map[id := Write(route, stops, true)]
  }

  lemma BothDelete(s: Sys, start: seq<seq<Stop>>, route: Id, a: seq<Stop>, b: seq<Stop>) returns (evs: seq<Event>)
    requires s.flight == map[] && route in s.routes
    ensures evs == [Arrive(0, route, a), Arrive(1, route, b), Advance(0), Advance(1)]
    ensures Kept(s, start, evs, route) == []
    ensures Run(s, evs).flight == Waiting(0, route, a) + Waiting(1, route, b)
  {
    hide Run, Kept, Without;
    RunNone(s, start, route);
    evs := [] + [Arrive(0, route, a)];
    RunOn(s, start, [], Arrive(0, route, a), route);
    RunOn(s, start, evs, Arrive(1, route, b), route);
    evs := evs + [Arrive(1, route, b)];
    assert Run(s, evs).flight == map[0 := Write(route, a, false), 1 := Write(route, b, false)];
    RunOn(s, start, evs, Advance(0), route);
    evs := evs + [Advance(0)];
    assert Run(s, evs).flight == Waiting(0, route, a) + map[1 := Write(route, b, false)];
    RunOn(s, start, evs, Advance(1), route);
    evs := evs + [Advance(1)];
  }

  lemma BothRun(s: Sys, start: seq<seq<Stop>>, route: Id, a: seq<Stop>, b: seq<Stop>)
    requires s.flight == map[] && route in s.routes
    ensures Kept(s, start, BothDeleteThenCreate(route, a, b), route) == One(a) + One(b)
  {
    hide Run, Kept;
    var evs := BothDelete(s, start, route, a, b);
    RunOn(s, start, evs, Advance(0), route);
    assert Kept(s, start, evs + [Advance(0)], route) == One(a);
    assert Run(s, evs + [Advance(0)]).flight == Waiting(1, route, b);
    RunOn(s, start, evs + [Advance(0)], Advance(1), route);
    assert BothDeleteThenCreate(route, a, b) == evs + [Advance(0)] + [Advance(1)];
  }

  lemma RunNone(s: Sys, start: seq<seq<Stop>>, route: Id)
    ensures Run(s, []) == s && Kept(s, start, [], route) == start
  {
  }

  class RoutesService {
    var routes: map<Id, Route>
    var stops: seq<StopRow>
    // The list last written for each route.
    ghost var lists: map<Id, seq<Stop>>

    ghost predicate Valid()
      reads this
    {
      lists.Keys == routes.Keys && Stores(stops, lists)
    }

    constructor ()
      ensures Valid() && routes == map[]
    {
      routes, stops, lists := map[], [], map[];
    }

    method Create(schoolId: Id, newId: Id, given: Option<seq<Stop>>) returns (ok: bool)
      requires Valid()
      modifies this
      ensures Valid() && ok == (newId !in old(routes))
      ensures routes == if ok then old(routes)[newId := Route(schoolId, false)] else old(routes)
      ensures lists == if ok then old(lists)[newId := if given.Some? then given.value else []] else old(lists)
    {
      ok := newId !in routes;
      if ok {
        routes := routes[newId := Route(schoolId, false)];
        var wanted := if given.Some? then given.value else [];
        WriteStores(stops, lists, newId, wanted);
        NothingToDelete(stops, lists, newId);
        if |wanted| > 0 {
          stops := stops + Numbered(newId, wanted);
        } else {
          assert Without(stops, newId) + Numbered(newId, wanted) == stops;
        }
        lists := lists[newId := wanted];
      }
    }

    method Update(schoolId: Id, routeId: Id, given: Option<seq<Stop>>) returns (ok: bool)
      requires Valid()
      modifies this
      ensures Valid() && routes == old(routes)
      ensures ok == (routeId in routes && routes[routeId].school == schoolId && !routes[routeId].deleted)
      ensures lists == if ok && given.Some? then old(lists)[routeId := given.value] else old(lists)
    {
      ok := routeId in routes && routes[routeId].school == schoolId && !routes[routeId].deleted;
      if ok && given.Some? {
        WriteStores(stops, lists, routeId, given.value);
        stops := Without(stops, routeId);
        if |given.value| > 0 {
          stops := stops + Numbered(routeId, given.value);
        } else {
          assert stops + Numbered(routeId, given.value) == stops;
        }
        lists := lists[routeId := given.value];
      }
    }

    method Remove(schoolId: Id, routeId: Id) returns (ok: bool)
      requires Valid()
      modifies this`routes
      ensures Valid()
      ensures ok == (routeId in old(routes) && old(routes)[routeId].school == schoolId && !old(routes)[routeId].deleted)
      ensures routes == if ok then old(routes)[routeId := Route(schoolId, true)] else old(routes)
    {
      ok := routeId in routes && routes[routeId].school == schoolId && !routes[routeId].deleted;
      if ok {
        routes := routes[routeId := routes[routeId].(deleted := true)];
      }
    }

    // found is the database's answer to the ordered query.
    method GetStops(schoolId: Id, routeId: Id, found: seq<StopRow>) returns (answer: Answer)
      requires Valid() && Finds(stops, routeId, found)
      ensures answer == if routeId in routes && routes[routeId].school == schoolId && !routes[routeId].deleted
                        then Stops(lists[routeId]) else NotFound
    {
      if routeId !in routes || routes[routeId].school != schoolId || routes[routeId].deleted {
        return NotFound;
      }
      StoredListReadsBack(stops, lists, routeId, found);
      var list := seq(|found|, i requires 0 <= i < |found| => found[i].stop);
      assert list == lists[routeId];
      answer := Stops(list);
    }
  }

  lemma {:induction false} NothingToDelete(rows: seq<StopRow>, lists: map<Id, seq<Stop>>, route: Id)
    requires Stores(rows, lists) && route !in lists
    ensures Without(rows, route) == rows
  {
    forall r <- rows ensures r.route != route {
      assert r in multiset(rows);
    }
    WithoutNone(rows, route);
  }

  lemma {:induction false} WithoutNone(rows: seq<StopRow>, route: Id)
    requires forall r <- rows :: r.route != route
    ensures Without(rows, route) == rows
  {
    if rows != [] {
      WithoutNone(rows[1..], route);
      assert rows == [rows[0]] + rows[1..];
    }
  }
}
