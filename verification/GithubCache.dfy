// The repository cache: one slot with no user name in its key, kept right by updateGithubConfig alone.
// Both handlers await the database, and one of them GitHub, with others running in between.
module GithubCache {
  import opened Options
  import opened Text

  type Id = nat
  type Repo = nat

  datatype Config = Config(username: string, enabled: bool)

  datatype Cached = Cached(data: seq<Repo>, timestamp: nat)

  const LIMIT := 12

  datatype Reply = Reply(repositories: seq<Repo>, error: bool)

  // The schema trims and lowers what is stored.
  function Cast(username: string): string {
    Lower(Trim(username))
  }

  // getGithubRepos once it has read the document, or waiting for GitHub; updateGithubConfig once it has
  // read the stored name, or waiting for its write.
  datatype Thread =
    | Seen(config: Option<Config>)
    | Asking(name: string)
    | Intending(stored: string, username: Option<string>, enabled: Option<bool>)
    | Writing(username: Option<string>, enabled: Option<bool>)
  {
    predicate IsUpdate() {
      Intending? || Writing?
    }
  }

  // What GitHub answered a request for a name at a time.
  datatype Fetch = Fetch(name: string, at: nat, data: seq<Repo>)

  // fetched and origin are no state of the program: all of GitHub's answers, and the name the cached one
  // was asked for. No handler looks at them.
  datatype State = State(config: Option<Config>, cache: Option<Cached>, origin: string, fetched: seq<Fetch>,
                         flight: map<Id, Thread>, clock: nat)

  // A request arrives and reads the document, or makes its next step: accepted is the verdict of the schema's
  // validators and the database on a write, answer what GitHub says if it is asked, None a failed request.
  datatype Event =
    | Get(id: Id)
    | Update(id: Id, username: Option<string>, enabled: Option<bool>)
    | Advance(id: Id, elapsed: nat, accepted: bool, answer: Option<seq<Repo>>)

  predicate Shows(config: Option<Config>) {
    config.Some? && config.value.enabled && config.value.username != []
  }

  predicate Fresh(cache: Option<Cached>, now: nat, duration: nat) {
    cache.Some? && cache.value.data != [] && now < cache.value.timestamp + duration
  }

  function FirstOf(data: seq<Repo>): (first: seq<Repo>)
    ensures first <= data && |first| <= LIMIT && (first == data || |first| == LIMIT)
  {
    if |data| <= LIMIT then data else data[..LIMIT]
  }

  // What a request that has read the document is answered without asking GitHub, if it is.
  function AnswerAtOnce(config: Option<Config>, cache: Option<Cached>, now: nat, duration: nat): Option<Reply> {
    if !Shows(config) then Some(Reply([], false))
    else if Fresh(cache, now, duration) then Some(Reply(FirstOf(cache.value.data), false))
    else None
  }

  function ReplyTo(answer: Option<seq<Repo>>): Reply {
    if answer.Some? && answer.value != [] then Reply(answer.value, false) else Reply([], true)
  }

  function CacheAfter(cache: Option<Cached>, answer: Option<seq<Repo>>, now: nat): Option<Cached> {
    if answer.Some? then Some(Cached(answer.value, now)) else cache
  }

  function ConfigAfter(config: Config, username: Option<string>, enabled: Option<bool>): Config {
    Config(if username.Some? then Cast(username.value) else config.username,
           if enabled.Some? then enabled.value else config.enabled)
  }

  // updates.username && updates.username !== config.username
  predicate Invalidates(stored: string, username: Option<string>) {
    username.Some? && username.value != [] && username.value != stored
  }

  function Step(s: State, id: Id, accepted: bool, answer: Option<seq<Repo>>, duration: nat): State
    requires id in s.flight
  {
    match s.flight[id]
    case Seen(config) =>
      if AnswerAtOnce(config, s.cache, s.clock, duration).Some? then s.(flight := s.flight - {id})
      else s.(flight := s.flight[id := Asking(config.value.username)])
    case Asking(name) =>
      s.(cache := CacheAfter(s.cache, answer, s.clock), origin := if answer.Some? then name else s.origin,
         fetched := if answer.Some? then s.fetched + [Fetch(name, s.clock, answer.value)] else s.fetched,
         flight := s.flight - {id})
    case Intending(stored, username, enabled) =>
      s.(cache := if Invalidates(stored, username) then None else s.cache,
         flight := s.flight[id := Writing(username, enabled)])
    case Writing(username, enabled) =>
      s.(config := if accepted && s.config.Some? then Some(ConfigAfter(s.config.value, username, enabled)) else s.config,
         flight := s.flight - {id})
  }

  // Without a document an update first creates one, which the schema refuses: the user name is required.
  function Tick(s: State, ev: Event, duration: nat): State {
    match ev
    case Get(id) => if id in s.flight then s else s.(flight := s.flight[id := Seen(s.config)])
    case Update(id, username, enabled) =>
      if id in s.flight || s.config.None? then s
      else s.(flight := s.flight[id := Intending(s.config.value.username, username, enabled)])
    case Advance(id, elapsed, accepted, answer) =>
      var s' := s.(clock := s.clock + elapsed);
      if id in s.flight then Step(s', id, accepted, answer, duration) else s'
  }

  function Run(s: State, evs: seq<Event>, duration: nat): State {
    if evs == [] then s else Tick(Run(s, evs[..|evs| - 1], duration), evs[|evs| - 1], duration)
  }

  lemma RunOn(s: State, evs: seq<Event>, ev: Event, duration: nat)
    ensures Run(s, evs + [ev], duration) == Tick(Run(s, evs, duration), ev, duration)
  {
    assert (evs + [ev])[..|evs|] == evs;
  }

  lemma RunThree(s: State, a: Event, b: Event, c: Event, duration: nat)
    ensures Run(s, [a, b, c], duration) == Tick(Tick(Tick(s, a, duration), b, duration), c, duration)
  {
    RunOn(s, [], a, duration);
    RunOn(s, [] + [a], b, duration);
    RunOn(s, [] + [a] + [b], c, duration);
    assert [] + [a] + [b] + [c] == [a, b, c];
  }

  predicate Named(config: Option<Config>) {
    config.Some? && config.value.username != []
  }

  // The cache holds an answer of GitHub to a request for origin. That holds of every run.
  predicate Honest(s: State) {
    s.cache.Some? ==>
      s.cache.value.timestamp <= s.clock && Fetch(s.origin, s.cache.value.timestamp, s.cache.value.data) in s.fetched
  }

  // While a user name is set, what is cached was asked for that name.
  predicate Truthful(s: State) {
    s.cache.Some? && Named(s.config) ==> s.origin == s.config.value.username
  }

  lemma {:induction false} CacheIsHonest(s: State, evs: seq<Event>, duration: nat)
    requires Honest(s)
    ensures Honest(Run(s, evs, duration))
  {
    if evs != [] {
      CacheIsHonest(s, evs[..|evs| - 1], duration);
    }
  }

  lemma CastTwice(s: string)
    ensures Cast(Cast(s)) == Cast(s)
  {
    var t := Trim(s);
    TrimTrims(s);
    forall i | 0 <= i < |t| ensures IsSpace(Lower(t)[i]) ==> IsSpace(t[i]) {
      assert Lower(t)[i] == LowerChar(t[i]);
    }
    TrimTrims(Lower(t));
    assert Lower(Lower(t)) == Lower(t);
  }

  // ---- Renaming updates that run with nothing else in flight ----

  // The update is on its way to store another name.
  predicate Renames(s: State, th: Thread) {
    th.IsUpdate() && th.username.Some? && s.config.Some? && Cast(th.username.value) != s.config.value.username
  }

  // From its read to its write, an update to another name is alone.
  ghost predicate Alone(s: State) {
    forall a, b | a in s.flight && b in s.flight && a != b :: !Renames(s, s.flight[a])
  }

  ghost predicate AloneRun(s: State, evs: seq<Event>, duration: nat) {
    forall i | 0 <= i <= |evs| :: Alone(Run(s, evs[..i], duration))
  }

  // What a handler has read is still so; a renaming update at its write has cleared the cache.
  predicate UpToDate(s: State, th: Thread) {
    match th
    case Seen(config) => config.Some? == s.config.Some? && (config.Some? ==> config.value.username == s.config.value.username)
    case Asking(name) => s.config.Some? && name == s.config.value.username
    case Intending(stored, _, _) => s.config.Some? && stored == s.config.value.username
    case Writing(username, _) =>
      s.config.Some? && (Renames(s, th) && Cast(username.value) != [] ==> s.cache.None?)
  }

  ghost predicate Settled(s: State) {
    && (s.config.Some? ==> Cast(s.config.value.username) == s.config.value.username)
    && (forall id | id in s.flight :: UpToDate(s, s.flight[id]))
  }

  lemma EmptyCast()
    ensures Cast([]) == []
  {
  }

  lemma StepStaysTruthful(s: State, id: Id, accepted: bool, answer: Option<seq<Repo>>, duration: nat)
    requires Truthful(s) && Settled(s) && Alone(s) && id in s.flight
    ensures Truthful(Step(s, id, accepted, answer, duration)) && Settled(Step(s, id, accepted, answer, duration))
  {
    hide Cast;
    var th, s' := s.flight[id], Step(s, id, accepted, answer, duration);
    assert UpToDate(s, th);
    EmptyCast();
    if th.IsUpdate() && th.username.Some? {
      CastTwice(th.username.value);
    }
    forall o | o in s'.flight ensures UpToDate(s', s'.flight[o]) {
      if o != id {
        assert UpToDate(s, s.flight[o]) && !Renames(s, th) && !Renames(s, s.flight[o]);
      }
    }
  }

  lemma TickStaysTruthful(s: State, ev: Event, duration: nat)
    requires Truthful(s) && Settled(s) && Alone(s)
    ensures Truthful(Tick(s, ev, duration)) && Settled(Tick(s, ev, duration))
  {
    hide Step, Cast;
    if ev.Advance? {
      var s0 := s.(clock := s.clock + ev.elapsed);
      assert forall id | id in s.flight :: UpToDate(s, s.flight[id]);
      if ev.id in s.flight {
        StepStaysTruthful(s0, ev.id, ev.accepted, ev.answer, duration);
      }
    }
  }

  lemma {:induction false} RunStaysTruthful(s: State, evs: seq<Event>, duration: nat)
    requires Truthful(s) && Settled(s) && AloneRun(s, evs, duration)
    ensures Truthful(Run(s, evs, duration)) && Settled(Run(s, evs, duration))
  {
    if evs != [] {
      hide Tick, Settled, Truthful, Alone;
      var n := |evs| - 1;
      assert forall i | 0 <= i <= n :: evs[..n][..i] == evs[..i];
      RunStaysTruthful(s, evs[..n], duration);
      assert Alone(Run(s, evs[..n], duration));
      TickStaysTruthful(Run(s, evs[..n], duration), evs[n], duration);
    }
  }

  // In every run in which an update to another name is alone from its read to its write, repositories
  // answered from the cache are what GitHub answered a request for the configured name, less than the
  // cache duration ago.
  lemma CachedReposAreCurrent(s: State, evs: seq<Event>, duration: nat, id: Id, now: nat) returns (at: nat, data: seq<Repo>)
    requires Honest(s) && Truthful(s) && Settled(s) && AloneRun(s, evs, duration)
    requires var s' := Run(s, evs, duration);
             now >= s'.clock && id in s'.flight && s'.flight[id].Seen? && Shows(s'.flight[id].config) &&
             AnswerAtOnce(s'.flight[id].config, s'.cache, now, duration).Some?
    ensures var s', name := Run(s, evs, duration), Run(s, evs, duration).flight[id].config.value.username;
            s'.config.Some? && s'.config.value.username == name && at <= now < at + duration &&
            Fetch(name, at, data) in s'.fetched &&
            AnswerAtOnce(s'.flight[id].config, s'.cache, now, duration) == Some(Reply(FirstOf(data), false))
  {
    RunStaysTruthful(s, evs, duration);
    CacheIsHonest(s, evs, duration);
    var s' := Run(s, evs, duration);
    assert UpToDate(s', s'.flight[id]);
    at, data := s'.cache.value.timestamp, s'.cache.value.data;
  }

  // ---- Exactly when another name's answer is served ----

  // A request that arrived now would be answered from the cache with what was asked for another name.
  predicate ServesOther(s: State, duration: nat) {
    Shows(s.config) && Fresh(s.cache, s.clock, duration) && s.origin != s.config.value.username
  }

  // The name a request in flight asks GitHub for, or will ask for if the cache does not answer it.
  predicate AsksFor(th: Thread, name: string) {
    th == Asking(name) || (th.Seen? && Shows(th.config) && th.config.value.username == name)
  }

  predicate AsksOther(s: State)
    requires s.config.Some?
  {
    exists id <- s.flight :: !s.flight[id].IsUpdate() &&
      (s.flight[id].Asking? || Shows(s.flight[id].config)) && !AsksFor(s.flight[id], s.config.value.username)
  }

  // Only requests arrive and make their steps; updates in flight wait.
  predicate OnlyGets(s: State, evs: seq<Event>) {
    forall i | 0 <= i < |evs| ::
      evs[i].Get? || (evs[i].Advance? && !(evs[i].id in s.flight && s.flight[evs[i].id].IsUpdate()))
  }

  // No update has been let on, and nothing cached or asked is another name's.
  ghost predicate StaysRight(s: State, s0: State, duration: nat)
    requires s0.config.Some?
  {
    s.config == s0.config && !ServesOther(s, duration) && !AsksOther(s) && s0.clock <= s.clock &&
    (forall id | id in s.flight && s.flight[id].IsUpdate() :: id in s0.flight && s0.flight[id].IsUpdate())
  }

  lemma GetStaysRight(s: State, ev: Event, s0: State, duration: nat)
    requires Shows(s0.config) && s.config == s0.config && StaysRight(s, s0, duration)
    requires ev.Get? || (ev.Advance? && !(ev.id in s0.flight && s0.flight[ev.id].IsUpdate()))
    ensures Tick(s, ev, duration).config == s0.config && StaysRight(Tick(s, ev, duration), s0, duration)
  {
    var s' := Tick(s, ev, duration);
    if ev.Advance? && ev.id in s.flight {
      assert !s.flight[ev.id].IsUpdate();
    }
    assert !AsksOther(s');
  }

  lemma {:induction false} GetsStayRight(s: State, evs: seq<Event>, duration: nat)
    requires Shows(s.config) && !ServesOther(s, duration) && !AsksOther(s) && OnlyGets(s, evs)
    ensures Run(s, evs, duration).config == s.config && StaysRight(Run(s, evs, duration), s, duration)
  {
    if evs != [] {
      hide Tick, StaysRight;
      var n := |evs| - 1;
      GetsStayRight(s, evs[..n], duration);
      GetStaysRight(Run(s, evs[..n], duration), evs[n], s, duration);
    } else {
      assert StaysRight(s, s, duration);
    }
  }

  // A request for another name outlasts what is cached, asks, and its answer is cached.
  lemma OtherIsServed(s: State, id: Id, repo: Repo, duration: nat) returns (evs: seq<Event>)
    requires Shows(s.config) && id in s.flight && !s.flight[id].IsUpdate() && duration > 0
    requires (s.flight[id].Asking? || Shows(s.flight[id].config)) && !AsksFor(s.flight[id], s.config.value.username)
    ensures OnlyGets(s, evs) && ServesOther(Run(s, evs, duration), duration)
  {
    var ask := Advance(id, 0, false, Some([repo]));
    if s.flight[id].Asking? {
      evs := [] + [ask];
      RunOn(s, [], ask, duration);
    } else {
      var wait := if s.cache.Some? then s.cache.value.timestamp + duration else 0;
      var check := Advance(id, wait, false, None);
      evs := [] + [check] + [ask];
      RunOn(s, [], check, duration);
      RunOn(s, [] + [check], ask, duration);
    }
  }

  // In any state, another name's answer will be served under the configured one by some course of the
  // requests alone if and only if it is served already or a request for another name is in flight.
  lemma OtherNameIsServedIff(s: State, duration: nat)
    requires Shows(s.config) && duration > 0
    ensures (exists evs: seq<Event> :: OnlyGets(s, evs) && ServesOther(Run(s, evs, duration), duration)) <==>
            ServesOther(s, duration) || AsksOther(s)
  {
    if ServesOther(s, duration) {
      assert OnlyGets(s, []) && Run(s, [], duration) == s;
    } else if AsksOther(s) {
      var id :| id in s.flight && !s.flight[id].IsUpdate() &&
        (s.flight[id].Asking? || Shows(s.flight[id].config)) && !AsksFor(s.flight[id], s.config.value.username);
      var evs := OtherIsServed(s, id, 0, duration);
    } else {
      forall evs: seq<Event> | OnlyGets(s, evs) ensures !ServesOther(Run(s, evs, duration), duration) {
        GetsStayRight(s, evs, duration);
      }
    }
  }

  // An update's write of a name leaves another name's answer to be served under it if and only if a
  // non-empty one is cached and fresh, or a request for another name is in flight.
  lemma RenamingWriteServesOtherIff(s: State, id: Id, duration: nat)
    requires id in s.flight && s.flight[id].Writing? && s.flight[id].username.Some? && s.config.Some? && duration > 0
    requires Shows(Some(ConfigAfter(s.config.value, s.flight[id].username, s.flight[id].enabled)))
    ensures var name, s' := Cast(s.flight[id].username.value), Tick(s, Advance(id, 0, true, None), duration);
            (exists evs: seq<Event> :: OnlyGets(s', evs) && ServesOther(Run(s', evs, duration), duration)) <==>
            (Fresh(s.cache, s.clock, duration) && s.origin != name) ||
            exists o <- s.flight :: !s.flight[o].IsUpdate() && (s.flight[o].Asking? || Shows(s.flight[o].config)) &&
                                    !AsksFor(s.flight[o], name)
  {
    hide Run, Cast;
    var s' := Tick(s, Advance(id, 0, true, None), duration);
    OtherNameIsServedIff(s', duration);
    assert forall o | o in s.flight && !s.flight[o].IsUpdate() :: o in s'.flight && s'.flight[o] == s.flight[o];
  }

  predicate Fills(s: State, ev: Event) {
    ev.Advance? && ev.id in s.flight && s.flight[ev.id].Asking? && ev.answer.Some?
  }

  ghost predicate NoFill(s: State, evs: seq<Event>, duration: nat) {
    forall i | 0 <= i < |evs| :: !Fills(Run(s, evs[..i], duration), evs[i])
  }

  // Why something may be cached when an update comes to its write: it was filled in after the update's own
  // invalidation, or the update did not invalidate what was there.
  lemma {:induction false} CachedAtTheWrite(s: State, id: Id, evs: seq<Event>, duration: nat)
    requires id in s.flight && s.flight[id].Intending?
    requires var s1 := Tick(s, Advance(id, 0, false, None), duration);
             NoFill(s1, evs, duration) && Run(s1, evs, duration).cache.Some?
    ensures var s1 := Tick(s, Advance(id, 0, false, None), duration);
            !Invalidates(s.flight[id].stored, s.flight[id].username) &&
            Run(s1, evs, duration).cache == s.cache && Run(s1, evs, duration).origin == s.origin
  {
    var s1 := Tick(s, Advance(id, 0, false, None), duration);
    if evs != [] {
      hide Tick, Invalidates;
      var n := |evs| - 1;
      assert forall i | 0 <= i <= n :: evs[..n][..i] == evs[..i];
      assert !Fills(Run(s1, evs[..n], duration), evs[n]);
      UnfilledStays(Run(s1, evs[..n], duration), evs[n], duration);
      CachedAtTheWrite(s, id, evs[..n], duration);
    }
  }

  lemma UnfilledStays(s: State, ev: Event, duration: nat)
    requires !Fills(s, ev) && Tick(s, ev, duration).cache.Some?
    ensures Tick(s, ev, duration).cache == s.cache && Tick(s, ev, duration).origin == s.origin
  {
  }

  // ---- Runs that serve one name's repositories as another's, for any two names ----

  predicate Calm(s: State, name: string) {
    s.flight == map[] && s.cache.None? && s.config == Some(Config(name, true)) && name != []
  }

  // An update has read and cleared; a request fills the cache for the old name, all by itself; the update
  // writes the new name with no request in flight.
  lemma FilledBeforeTheWrite(s: State, was: string, other: string, data: seq<Repo>, duration: nat) returns (evs: seq<Event>)
    requires Calm(s, was) && other != was && Cast(other) != was && Cast(other) != [] && data != [] && duration > 0
    ensures var s' := Run(s, evs, duration);
            s'.flight == map[] && s'.config == Some(Config(Cast(other), true)) && s'.origin == was &&
            ServesOther(s', duration) &&
            AnswerAtOnce(s'.config, s'.cache, s'.clock, duration) == Some(Reply(FirstOf(data), false))
  {
    hide Cast, Run;
    var u, c, g, k, f, w := Update(0, Some(other), None), Advance(0, 0, false, None), Get(1), Advance(1, 0, false, None),
      Advance(1, 0, false, Some(data)), Advance(0, 0, true, None);
    RunNothing(s, duration);
    RunOn(s, [], u, duration);
    RunOn(s, [] + [u], c, duration);
    RunOn(s, [] + [u] + [c], g, duration);
    RunOn(s, [] + [u] + [c] + [g], k, duration);
    RunOn(s, [] + [u] + [c] + [g] + [k], f, duration);
    RunOn(s, [] + [u] + [c] + [g] + [k] + [f], w, duration);
    evs := [] + [u] + [c] + [g] + [k] + [f] + [w];
    var s2 := Run(s, [] + [u] + [c], duration);
    assert Cast([]) == [] by { EmptyCast(); }
    assert s2.cache == None && s2.flight == map[0 := Writing(Some(other), None)];
    var s4 := Run(s, [] + [u] + [c] + [g] + [k], duration);
    assert s4.flight == map[0 := Writing(Some(other), None), 1 := Asking(was)];
    var s5 := Run(s, [] + [u] + [c] + [g] + [k] + [f], duration);
    assert s5.flight == map[0 := Writing(Some(other), None)];
  }

  lemma RunNothing(s: State, duration: nat)
    ensures Run(s, [], duration) == s
  {
  }

  // An update that names the stored name clears nothing; another renames in between and the cache is filled
  // for the new name; the first then writes the old name back.
  lemma WrittenBack(s: State, was: string, other: string, data: seq<Repo>, duration: nat) returns (evs: seq<Event>)
    requires Calm(s, was) && Cast(was) == was && Cast(other) != was && Cast(other) != [] && data != [] && duration > 0
    ensures var s' := Run(s, evs, duration);
            s'.flight == map[] && s'.config == Some(Config(was, true)) && s'.origin == Cast(other) &&
            ServesOther(s', duration) &&
            AnswerAtOnce(s'.config, s'.cache, s'.clock, duration) == Some(Reply(FirstOf(data), false))
  {
    hide Cast, Run;
    var u, v, c, w, d, g := Update(0, Some(was), None), Update(1, Some(other), None), Advance(0, 0, false, None),
      Advance(1, 0, true, None), Advance(0, 0, true, None), Get(2);
    var k, f := Advance(2, 0, false, None), Advance(2, 0, false, Some(data));
    RunNothing(s, duration);
    RunOn(s, [], u, duration);
    RunOn(s, [] + [u], c, duration);
    RunOn(s, [] + [u] + [c], v, duration);
    RunOn(s, [] + [u] + [c] + [v], w, duration);
    RunOn(s, [] + [u] + [c] + [v] + [w], w, duration);
    var renamed := [] + [u] + [c] + [v] + [w] + [w];
    var s2 := Run(s, [] + [u] + [c], duration);
    assert s2.flight == map[0 := Writing(Some(was), None)] && s2.cache == None;
    var s4 := Run(s, [] + [u] + [c] + [v] + [w], duration);
    assert s4.flight == map[0 := Writing(Some(was), None), 1 := Writing(Some(other), None)] && s4.cache == None;
    var s5 := Run(s, renamed, duration);
    assert s5.flight == map[0 := Writing(Some(was), None)] && s5.config == Some(Config(Cast(other), true));
    RunOn(s, renamed, g, duration);
    RunOn(s, renamed + [g], k, duration);
    RunOn(s, renamed + [g] + [k], f, duration);
    RunOn(s, renamed + [g] + [k] + [f], d, duration);
    evs := renamed + [g] + [k] + [f] + [d];
    var s7 := Run(s, renamed + [g] + [k], duration);
    assert s7.flight == map[0 := Writing(Some(was), None), 2 := Asking(Cast(other))];
    var s8 := Run(s, renamed + [g] + [k] + [f], duration);
    assert s8.flight == map[0 := Writing(Some(was), None)];
  }

  // Changing the name while a request waits: its late answer fills the cleared cache, and is then served
  // under the new name, unless it failed or was empty.
  lemma LateAnswerIsServedIff(s: State, id: Id, u: Id, name: string, late: Option<seq<Repo>>, duration: nat)
    requires id in s.flight && s.flight[id].Asking? && u !in s.flight && Shows(s.config) && duration > 0
    requires name != s.config.value.username && Cast(name) != []
    ensures var step := Advance(u, 0, true, None);
            var s' := Run(s, [Update(u, Some(name), None), step, step, Advance(id, 0, false, late)], duration);
            s'.config == Some(Config(Cast(name), true)) &&
            (if late.Some? && late.value != []
             then AnswerAtOnce(s'.config, s'.cache, s'.clock, duration) == Some(Reply(FirstOf(late.value), false)) &&
                  (ServesOther(s', duration) <==> s.flight[id].name != Cast(name))
             else AnswerAtOnce(s'.config, s'.cache, s'.clock, duration) == None)
  {
    hide Cast, Run;
    var step, last := Advance(u, 0, true, None), Advance(id, 0, false, late);
    EmptyCast();
    RunThree(s, Update(u, Some(name), None), step, step, duration);
    var s3 := Run(s, [Update(u, Some(name), None), step, step], duration);
    assert id in s3.flight && s3.flight[id] == s.flight[id] && s3.cache == None;
    RunOn(s, [Update(u, Some(name), None), step, step], last, duration);
    assert [Update(u, Some(name), None), step, step] + [last] == [Update(u, Some(name), None), step, step, last];
  }

  // ---- The handlers run alone ----

  // The module variable reposCache and the stored document, as the two handlers update them.
  class GithubController {
    var config: Option<Config>
    var reposCache: Option<Cached>
    // The name asked for what is cached, and all answers of GitHub.
    ghost var origin: string
    ghost var fetched: seq<Fetch>

    ghost function View(now: nat): State
      reads this
    {
      State(config, reposCache, origin, fetched, map[], now)
    }

    // answer is what GitHub says if it is asked.
    method GetGithubRepos(now: nat, duration: nat, answer: Option<seq<Repo>>) returns (r: Reply)
      modifies this`reposCache, this`origin, this`fetched
      ensures View(now) == Run(old(View(now)), [Get(0), Advance(0, 0, false, answer), Advance(0, 0, false, answer)], duration)
      ensures var at := AnswerAtOnce(old(config), old(reposCache), now, duration);
              r == if at.Some? then at.value else ReplyTo(answer)
      ensures var c, cached := old(config), old(reposCache);
              if c.None? || !c.value.enabled || c.value.username == "" then r == Reply([], false) && reposCache == cached
              else if cached.Some? && |cached.value.data| > 0 && now - cached.value.timestamp < duration
              then reposCache == cached &&
                   r == Reply(if |cached.value.data| <= 12 then cached.value.data else cached.value.data[..12], false)
              else if answer.None? then r == Reply([], true) && reposCache == cached
              else r == Reply(answer.value, answer.value == []) && reposCache == Some(Cached(answer.value, now))
    {
      ghost var s := View(now);
      GetRuns(s, answer, duration);
      if config.None? || !config.value.enabled || config.value.username == [] {
        return Reply([], false);
      }
      var repos: seq<Repo> := [];
      if reposCache.Some? && |reposCache.value.data| > 0 && now - reposCache.value.timestamp < duration {
        repos := FirstOf(reposCache.value.data);
      } else if answer.Some? {
        reposCache := Some(Cached(answer.value, now));
        origin, fetched := config.value.username, fetched + [Fetch(config.value.username, now, answer.value)];
        repos := answer.value;
      }
      r := if |repos| > 0 then Reply(repos, false) else Reply([], true);
    }

    method UpdateGithubConfig(username: Option<string>, enabled: Option<bool>, accepted: bool, now: nat, ghost duration: nat)
      returns (ok: bool)
      modifies this`config, this`reposCache
      ensures View(now) == Run(old(View(now)), [Update(0, username, enabled), Advance(0, 0, accepted, None),
                                                Advance(0, 0, accepted, None)], duration)
      ensures ok <==> accepted && old(config).Some?
      ensures var c := old(config);
              reposCache == (if c.Some? && username.Some? && username.value != "" && username.value != c.value.username
                             then None else old(reposCache)) &&
              config == if !ok then c else
                Some(Config(if username.Some? then Lower(Trim(username.value)) else c.value.username,
                            if enabled.Some? then enabled.value else c.value.enabled))
    {
      UpdateRuns(View(now), username, enabled, accepted, duration);
      if config.None? {
        return false;
      }
      if username.Some? && |username.value| > 0 && username.value != config.value.username {
        reposCache := None;
      }
      if accepted {
        config := Some(ConfigAfter(config.value, username, enabled));
      }
      ok := accepted;
    }
  }

  lemma GetRuns(s: State, answer: Option<seq<Repo>>, duration: nat)
    requires s.flight == map[]
    ensures var step := Advance(0, 0, false, answer);
            Run(s, [Get(0), step, step], duration)
            == if AnswerAtOnce(s.config, s.cache, s.clock, duration).Some? || answer.None? then s
               else s.(cache := Some(Cached(answer.value, s.clock)), origin := s.config.value.username,
                       fetched := s.fetched + [Fetch(s.config.value.username, s.clock, answer.value)])
  {
    var step := Advance(0, 0, false, answer);
    RunThree(s, Get(0), step, step, duration);
    assert Tick(s, Get(0), duration).flight == map[0 := Seen(s.config)];
    assert map[0 := Seen(s.config)] - {0} == map[];
  }

  lemma UpdateRuns(s: State, username: Option<string>, enabled: Option<bool>, accepted: bool, duration: nat)
    requires s.flight == map[]
    ensures var step := Advance(0, 0, accepted, None);
            Run(s, [Update(0, username, enabled), step, step], duration)
            == if s.config.None? then s
               else s.(cache := if Invalidates(s.config.value.username, username) then None else s.cache,
                       config := if accepted then Some(ConfigAfter(s.config.value, username, enabled)) else s.config)
  {
    hide Cast;
    var step := Advance(0, 0, accepted, None);
    RunThree(s, Update(0, username, enabled), step, step, duration);
  }
}
