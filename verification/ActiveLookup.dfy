// getActiveTrip against the trips: the scanned Redis keys are those of ActiveTrips, written as text.
module ActiveLookup {
  import opened Options
  import opened Decimals
  import opened Schema
  import opened Machine
  import opened Lifecycle
  import opened ActiveTrips
  import RedisKeys

  function TextKey(t: Id): string {
    RedisKeys.TripKey(Decimal(t))
  }

  function TextEntry(t: Id, key: ActiveKey): RedisKeys.Entry {
    RedisKeys.Entry(RedisKeys.ActiveTrip(Decimal(t), Decimal(key.van), Decimal(key.school)), key.expires)
  }

  // The store holds exactly the active keys under the trip pattern.
  ghost predicate Mirrors(store: RedisKeys.Store, active: map<Id, ActiveKey>) {
    && (forall t: Id :: t in active ==> TextKey(t) in store && store[TextKey(t)] == TextEntry(t, active[t]))
    && (forall k <- store :: RedisKeys.TripPattern(k) ==> exists t: Id :: t in active && k == TextKey(t))
  }

  lemma TextKeysDiffer(t: Id, u: Id)
    ensures TextKey(t) == TextKey(u) <==> t == u
    ensures RedisKeys.TripPattern(TextKey(t)) && RedisKeys.TripOf(TextKey(t)) == Decimal(t)
  {
    RedisKeys.KeysOfTrips(TextKey(t), Decimal(t));
    RedisKeys.KeysOfTrips(TextKey(u), Decimal(u));
    if TextKey(t) == TextKey(u) {
      DecimalIsInjective(t, u);
    }
  }

  // What setActiveTrip and removeActiveTrip do to the store is what SetActive and DeleteActive do to the keys.
  lemma WritesKeepTheMirror(store: RedisKeys.Store, active: map<Id, ActiveKey>, t: Id, key: ActiveKey)
    requires Mirrors(store, active)
    ensures Mirrors(store[TextKey(t) := TextEntry(t, key)], active[t := key])
    ensures Mirrors(store - {TextKey(t)}, active - {t})
  {
    forall u: Id ensures TextKey(t) == TextKey(u) <==> t == u {
      TextKeysDiffer(t, u);
    }
    forall k <- store | RedisKeys.TripPattern(k)
      ensures exists u: Id :: u in active && k == TextKey(u)
      ensures exists u: Id :: u in active[t := key] && k == TextKey(u)
      ensures k != TextKey(t) ==> exists u: Id :: u in active - {t} && k == TextKey(u)
    {
      var u: Id :| u in active && k == TextKey(u);
      assert u in active[t := key];
      assert k != TextKey(t) ==> u in active - {t};
    }
    assert t in active[t := key];
  }

  lemma FoundIsActive(store: RedisKeys.Store, active: map<Id, ActiveKey>, van: Id, now: nat, found: RedisKeys.Payload)
    returns (t: Id)
    requires Mirrors(store, active) && RedisKeys.Finds(store, Decimal(van), now, Some(found))
    ensures found.trip == Decimal(t) && t in active && active[t].van == van && now < active[t].expires
  {
    var k := RedisKeys.TripKey(found.trip);
    RedisKeys.KeysOfTrips(k, found.trip);
    t :| t in active && k == TextKey(t);
    TextKeysDiffer(t, t);
    DecimalIsInjective(van, active[t].van);
  }

  // After any clean run, for any batching of the scan: when a van's lookup is null, every trip of the van
  // still under way is at least 24 hours old or only now being created; when it is not null, it is a live
  // key of that van.
  lemma LookupFollowsTheTrips(w: World, clock: nat, evs: seq<Event>, store: RedisKeys.Store, van: Id,
                              r: Option<RedisKeys.Payload>)
    requires LawfulStart(w) && KeyLaw(Quiet(w, clock)) && CleanRun(Quiet(w, clock), evs)
    requires var s := Run(Quiet(w, clock), evs);
             Mirrors(store, s.world.active) && RedisKeys.Finds(store, Decimal(van), s.clock, r)
    ensures var s := Run(Quiet(w, clock), evs);
            match r
            case None => forall t <- s.world.trips ::
              s.world.trips[t].van == van && s.world.trips[t].status != COMPLETED ==>
              Creating(s, t) || s.world.trips[t].createdAt + ACTIVE_TRIP_TTL <= s.clock
            case Some(found) => exists t: Id :: t in s.world.active && found.trip == Decimal(t) &&
                                  s.world.active[t].van == van && s.clock < s.world.active[t].expires
  {
    hide Run, CleanRun, LawfulStart;
    UnfinishedTripsAreKeyed(w, clock, evs);
    var s := Run(Quiet(w, clock), evs);
    match r
    case Some(found) =>
      var t := FoundIsActive(store, s.world.active, van, s.clock, found);
    case None =>
      forall t <- s.world.trips | s.world.trips[t].van == van && s.world.trips[t].status != COMPLETED && !Creating(s, t)
        ensures s.world.trips[t].createdAt + ACTIVE_TRIP_TTL <= s.clock
      {
        assert Keyed(s.world, t);
        var there := RedisKeys.Get(store, RedisKeys.TripKey(Decimal(t)), s.clock);
      }
  }

  // A trip endTrip has finished is never found again, whatever interleaves.
  lemma EndedTripIsNeverFound(s: Sys, evs: seq<Event>, t: Id, store: RedisKeys.Store, van: Id, now: nat,
                              r: Option<RedisKeys.Payload>)
    requires Unkeyed(s, t) && Mirrors(store, Run(s, evs).world.active)
    requires RedisKeys.Finds(store, Decimal(van), now, r)
    ensures r.Some? ==> r.value.trip != Decimal(t)
  {
    EndedTripStaysUnkeyed(s, evs, t);
    if r.Some? {
      var u := FoundIsActive(store, Run(s, evs).world.active, van, now, r.value);
      if r.value.trip == Decimal(t) {
        DecimalIsInjective(t, u);
      }
    }
  }
}
