// The Redis keys of positions and active trips, read one at a time, in a pipeline, or by SCAN.
// SCAN returns its keys in batches of any size and order, with repeats; all it promises on a store that
// does not change meanwhile is that every matching key comes at least once and no other key does.
module RedisKeys {
  import opened Options

  // Latitude, longitude, speed and heading.
  type Location = nat

  // What JSON.parse makes of a stored value.
  datatype Payload =
    | Position(van: string, school: string, loc: Location, accuracy: Option<nat>)
    | ActiveTrip(trip: string, van: string, school: string)
    | Malformed

  datatype Entry = Entry(value: Payload, expires: nat)

  type Store = map<string, Entry>

  function VanKey(van: string): string {
    "svt:van:" + van + ":location"
  }

  function TripKey(trip: string): string {
    "svt:trip:" + trip + ":active"
  }

  // The patterns svt:van:*:location and svt:trip:*:active.
  predicate VanPattern(key: string) {
    |key| >= 17 && key[..8] == "svt:van:" && key[|key| - 9..] == ":location"
  }

  predicate TripPattern(key: string) {
    |key| >= 16 && key[..9] == "svt:trip:" && key[|key| - 7..] == ":active"
  }

  function VanOf(key: string): string
    requires VanPattern(key)
  {
    key[8..|key| - 9]
  }

  function TripOf(key: string): string
    requires TripPattern(key)
  {
    key[9..|key| - 7]
  }

  // A key matches its pattern exactly when it is the key of the part under the star, which may hold colons.
  lemma KeysOfVans(key: string, van: string)
    ensures VanPattern(VanKey(van)) && VanOf(VanKey(van)) == van
    ensures VanPattern(key) ==> key == VanKey(VanOf(key))
  {
    assert VanKey(van)[..8] == "svt:van:";
    assert VanKey(van)[|VanKey(van)| - 9..] == ":location";
    if VanPattern(key) {
      assert key == key[..8] + key[8..|key| - 9] + key[|key| - 9..];
    }
  }

  lemma KeysOfTrips(key: string, trip: string)
    ensures TripPattern(TripKey(trip)) && TripOf(TripKey(trip)) == trip
    ensures TripPattern(key) ==> key == TripKey(TripOf(key))
  {
    assert TripKey(trip)[..9] == "svt:trip:";
    assert TripKey(trip)[|TripKey(trip)| - 7..] == ":active";
    if TripPattern(key) {
      assert key == key[..9] + key[9..|key| - 7] + key[|key| - 7..];
    }
  }

  lemma PatternsAreDisjoint(key: string)
    ensures VanPattern(key) ==> !TripPattern(key)
  {
    if VanPattern(key) {
      assert key[..9][4] == key[4] == key[..8][4] == 'v';
      assert "svt:trip:"[4] == 't';
    }
  }

  // Payloads name the van or trip of their key, and only setActiveTrip writes under the trip pattern.
  predicate WellKeyed(store: Store) {
    && (forall k <- store :: VanPattern(k) && store[k].value.Position? ==> store[k].value.van == VanOf(k))
    && (forall k <- store :: TripPattern(k) ==> store[k].value.ActiveTrip? && store[k].value.trip == TripOf(k))
  }

  // The value GET returns: expired keys are gone.
  function Get(store: Store, key: string, now: nat): Option<Payload> {
    if key in store && now < store[key].expires then Some(store[key].value) else None
  }

  // getVanLocation: a value that does not parse reads as null.
  function LocationOf(store: Store, van: string, now: nat): (r: Option<Payload>)
    ensures r.Some? ==> r.value.Position?
  {
    var data := Get(store, VanKey(van), now);
    if data.Some? && data.value.Position? then data else None
  }

  // A stored position is read back until its time to live is over, and no other van's position changes.
  lemma SetThenGet(store: Store, van: string, loc: Location, accuracy: Option<nat>, school: string, ttl: nat, now: nat,
                   v: string, later: nat)
    ensures LocationOf(store[VanKey(van) := Entry(Position(van, school, loc, accuracy), now + ttl)], v, later)
            == if v != van then LocationOf(store, v, later)
               else if later < now + ttl then Some(Position(van, school, loc, accuracy)) else None
  {
    KeysOfVans(VanKey(van), van);
    KeysOfVans(VanKey(v), v);
  }

  // What the scan-and-filter form hands out of it: neither the school nor the accuracy.
  function Brief(p: Option<Payload>): Option<Location>
    requires p.Some? ==> p.value.Position?
  {
    if p.Some? then Some(p.value.loc) else None
  }

  predicate Covers(batches: seq<seq<string>>, store: Store, pattern: string -> bool, now: nat) {
    && (forall i, j | 0 <= i < |batches| && 0 <= j < |batches[i]| :: pattern(batches[i][j]))
    && (forall k <- store | pattern(k) && now < store[k].expires ::
          exists i, j | 0 <= i < |batches| && 0 <= j < |batches[i]| :: batches[i][j] == k)
  }

  // The keys of a scan, in the order they come.
  function Scanned(batches: seq<seq<string>>): seq<string> {
    if batches == [] then [] else Scanned(batches[..|batches| - 1]) + batches[|batches| - 1]
  }

  lemma {:induction false} ScannedHasAll(batches: seq<seq<string>>, i: nat, j: nat)
    requires i < |batches| && j < |batches[i]|
    ensures batches[i][j] in Scanned(batches)
  {
    var n := |batches| - 1;
    if i < n {
      ScannedHasAll(batches[..n], i, j);
    }
  }

  lemma {:induction false} ScannedOnly(batches: seq<seq<string>>, key: string)
    requires key in Scanned(batches)
    ensures exists i, j | 0 <= i < |batches| && 0 <= j < |batches[i]| :: batches[i][j] == key
  {
    var n := |batches| - 1;
    if key in Scanned(batches[..n]) {
      ScannedOnly(batches[..n], key);
      var i, j :| 0 <= i < n && 0 <= j < |batches[..n][i]| && batches[..n][i][j] == key;
      assert batches[i][j] == key;
    } else {
      var j :| 0 <= j < |batches[n]| && batches[n][j] == key;
    }
  }

  lemma CoverIsScan(batches: seq<seq<string>>, store: Store, pattern: string -> bool, now: nat, key: string)
    requires Covers(batches, store, pattern, now)
    ensures key in Scanned(batches) ==> pattern(key)
    ensures key in store && pattern(key) && now < store[key].expires ==> key in Scanned(batches)
  {
    if key in Scanned(batches) {
      ScannedOnly(batches, key);
    }
    if key in store && pattern(key) && now < store[key].expires {
      var i, j :| 0 <= i < |batches| && 0 <= j < |batches[i]| && batches[i][j] == key;
      ScannedHasAll(batches, i, j);
    }
  }

  // One scanned key of getSchoolVanLocations.
  function Collect(store: Store, school: string, now: nat, key: string, results: map<string, Payload>): map<string, Payload> {
    var data := Get(store, key, now);
    if data.Some? && data.value.Position? && data.value.school == school then results[data.value.van := data.value] else results
  }

  // The positions of a school, as the pointwise reads give them.
  ghost predicate AreSchoolPositions(store: Store, school: string, now: nat, results: map<string, Payload>) {
    forall van: string ::
      var there := LocationOf(store, van, now);
      if there.Some? && there.value.school == school then van in results && results[van] == there.value
      else van !in results
  }

  predicate Collected(store: Store, school: string, now: nat, seen: seq<string>, results: map<string, Payload>) {
    && (forall k <- seen :: VanPattern(k) && var there := LocationOf(store, VanOf(k), now);
          there.Some? && there.value.school == school ==> VanOf(k) in results)
    && (forall van <- results :: var there := LocationOf(store, van, now);
          there.Some? && there.value.school == school && results[van] == there.value)
  }

  lemma CollectStep(store: Store, school: string, now: nat, seen: seq<string>, key: string, results: map<string, Payload>)
    requires WellKeyed(store) && VanPattern(key) && Collected(store, school, now, seen, results)
    ensures Collected(store, school, now, seen + [key], Collect(store, school, now, key, results))
  {
    KeysOfVans(key, VanOf(key));
  }

  lemma CollectedIsAll(store: Store, school: string, now: nat, batches: seq<seq<string>>, results: map<string, Payload>)
    requires WellKeyed(store) && Covers(batches, store, VanPattern, now)
    requires Collected(store, school, now, Scanned(batches), results)
    ensures AreSchoolPositions(store, school, now, results)
  {
    forall van: string
      ensures var there := LocationOf(store, van, now);
              if there.Some? && there.value.school == school then van in results && results[van] == there.value
              else van !in results
    {
      KeysOfVans(VanKey(van), van);
      CoverIsScan(batches, store, VanPattern, now, VanKey(van));
    }
  }

  // A live active trip of the van, or none when it has none.
  ghost predicate Finds(store: Store, van: string, now: nat, r: Option<Payload>) {
    match r
    case Some(found) => found.ActiveTrip? && found.van == van && Get(store, TripKey(found.trip), now) == r
    case None => forall trip: string :: var there := Get(store, TripKey(trip), now);
                   there.Some? ==> there.value.ActiveTrip? && there.value.van != van
  }

  predicate NoneOf(store: Store, keys: seq<string>, van: string, now: nat) {
    forall k <- keys ::
      var there := Get(store, k, now);
      TripPattern(k) && (there.Some? && there.value.ActiveTrip? ==> there.value.van != van)
  }

  lemma NothingFound(store: Store, batches: seq<seq<string>>, van: string, now: nat)
    requires WellKeyed(store) && Covers(batches, store, TripPattern, now) && NoneOf(store, Scanned(batches), van, now)
    ensures Finds(store, van, now, None)
  {
    forall trip: string
      ensures var there := Get(store, TripKey(trip), now); there.Some? ==> there.value.ActiveTrip? && there.value.van != van
    {
      KeysOfTrips(TripKey(trip), trip);
      CoverIsScan(batches, store, TripPattern, now, TripKey(trip));
    }
  }

  // What the scan-and-filter form has gathered from the keys seen so far.
  predicate Gathered(store: Store, vans: seq<string>, seen: seq<string>, now: nat, results: map<string, Option<Location>>) {
    && (forall van <- results :: van in vans && results[van] == Brief(LocationOf(store, van, now)))
    && (forall k <- seen :: VanPattern(k) && (VanOf(k) in vans && LocationOf(store, VanOf(k), now).Some? ==> VanOf(k) in results))
  }

  lemma GatherStep(store: Store, vans: seq<string>, seen: seq<string>, key: string, now: nat,
                   results: map<string, Option<Location>>)
    requires WellKeyed(store) && VanPattern(key) && Gathered(store, vans, seen, now, results)
    ensures var data := Get(store, key, now);
            Gathered(store, vans, seen + [key], now,
                     if data.Some? && data.value.Position? && data.value.van in vans
                     then results[data.value.van := Some(data.value.loc)] else results)
  {
    KeysOfVans(key, VanOf(key));
  }

  lemma MissingIsNull(store: Store, vans: seq<string>, keys: seq<string>, now: nat,
                      results: map<string, Option<Location>>, van: string)
    requires Covers([keys], store, VanPattern, now) && Gathered(store, vans, keys, now, results)
    requires van in vans && van !in results
    ensures LocationOf(store, van, now) == None
  {
    KeysOfVans(VanKey(van), van);
    assert Scanned([keys]) == keys by {
      assert [keys][..0] == [];
    }
    CoverIsScan([keys], store, VanPattern, now, VanKey(van));
  }

  class RedisService {
    var store: Store

    // setVanLocation; recordLocation calls it with a trip id in place of the van's.
    method SetVanLocation(van: string, loc: Location, accuracy: Option<nat>, school: string, ttl: nat, now: nat)
      modifies this
      ensures store == old(store)[VanKey(van) := Entry(Position(van, school, loc, accuracy), now + ttl)]
      ensures WellKeyed(old(store)) ==> WellKeyed(store)
    {
      KeysOfVans(VanKey(van), van);
      PatternsAreDisjoint(VanKey(van));
      store := store[VanKey(van) := Entry(Position(van, school, loc, accuracy), now + ttl)];
    }

    method SetActiveTrip(trip: string, van: string, school: string, now: nat)
      modifies this
      ensures store == old(store)[TripKey(trip) := Entry(ActiveTrip(trip, van, school), now + 86_400_000)]
      ensures WellKeyed(old(store)) ==> WellKeyed(store)
    {
      KeysOfTrips(TripKey(trip), trip);
      PatternsAreDisjoint(TripKey(trip));
      store := store[TripKey(trip) := Entry(ActiveTrip(trip, van, school), now + 86_400_000)];
    }

    method RemoveActiveTrip(trip: string)
      modifies this
      ensures store == old(store) - {TripKey(trip)}
      ensures WellKeyed(old(store)) ==> WellKeyed(store)
    {
      store := store - {TripKey(trip)};
    }

    method GetVanLocation(van: string, now: nat) returns (r: Option<Payload>)
      ensures r == LocationOf(store, van, now)
    {
      var key := VanKey(van);
      if key !in store || store[key].expires <= now || !store[key].value.Position? {
        return None;
      }
      r := Some(store[key].value);
    }

    // Pipelined GETs.
    method GetVanLocations(vans: seq<string>, now: nat) returns (results: map<string, Option<Payload>>)
      ensures results.Keys == set van | van in vans
      ensures forall van <- vans :: results[van] == LocationOf(store, van, now)
    {
      results := map[];
      for i := 0 to |vans|
        invariant results.Keys == set van | van in vans[..i]
        invariant forall van <- vans[..i] :: results[van] == LocationOf(store, van, now)
      {
        var there := GetVanLocation(vans[i], now);
        results := results[vans[i] := there];
        assert vans[..i + 1] == vans[..i] + [vans[i]];
      }
      assert vans[..|vans|] == vans;
    }

    // The REDIS_LATEST_GPS form: KEYS, then keep what was asked for, then fill in nulls.
    method GetVanLocationsByKeys(vans: seq<string>, keys: seq<string>, now: nat)
      returns (results: map<string, Option<Location>>)
      requires WellKeyed(store) && Covers([keys], store, VanPattern, now)
      ensures results.Keys == set van | van in vans
      ensures forall van <- vans :: var there := LocationOf(store, van, now);
                results[van] == if there.Some? then Some(there.value.loc) else None
    {
      results := map[];
      for i := 0 to |keys|
        invariant Gathered(store, vans, keys[..i], now, results)
      {
        assert keys[..i + 1] == keys[..i] + [keys[i]];
        assert VanPattern([keys][0][i]);
        GatherStep(store, vans, keys[..i], keys[i], now, results);
        if keys[i] in store && now < store[keys[i]].expires && store[keys[i]].value.Position? {
          var parsed := store[keys[i]].value;
          if parsed.van in vans {
            results := results[parsed.van := Some(parsed.loc)];
          }
        }
      }
      assert keys[..|keys|] == keys;
      for i := 0 to |vans|
        invariant Gathered(store, vans, keys, now, results)
        invariant forall van <- vans[..i] :: van in results
      {
        assert vans[..i + 1] == vans[..i] + [vans[i]];
        if vans[i] !in results {
          MissingIsNull(store, vans, keys, now, results, vans[i]);
          results := results[vans[i] := None];
        }
      }
      assert vans[..|vans|] == vans;
    }

    method GetSchoolVanLocations(school: string, batches: seq<seq<string>>, now: nat) returns (results: map<string, Payload>)
      requires WellKeyed(store) && Covers(batches, store, VanPattern, now)
      ensures AreSchoolPositions(store, school, now, results)
    {
      results := map[];
      for i := 0 to |batches|
        invariant Collected(store, school, now, Scanned(batches[..i]), results)
      {
        ghost var before := Scanned(batches[..i]);
        for j := 0 to |batches[i]|
          invariant Collected(store, school, now, before + batches[i][..j], results)
        {
          var key := batches[i][j];
          CollectStep(store, school, now, before + batches[i][..j], key, results);
          assert before + batches[i][..j] + [key] == before + batches[i][..j + 1];
          if key in store && now < store[key].expires && store[key].value.Position? && store[key].value.school == school {
            results := results[store[key].value.van := store[key].value];
          }
        }
        assert batches[i][..|batches[i]|] == batches[i] && batches[..i + 1][..i] == batches[..i];
      }
      assert batches[..|batches|] == batches;
      CollectedIsAll(store, school, now, batches, results);
    }

    // The first scanned key of the van; null exactly when the van has no live key.
    method GetActiveTrip(van: string, batches: seq<seq<string>>, now: nat) returns (r: Option<Payload>)
      requires WellKeyed(store) && Covers(batches, store, TripPattern, now)
      ensures Finds(store, van, now, r)
    {
      for i := 0 to |batches|
        invariant NoneOf(store, Scanned(batches[..i]), van, now)
      {
        ghost var before := Scanned(batches[..i]);
        for j := 0 to |batches[i]|
          invariant NoneOf(store, before + batches[i][..j], van, now)
        {
          var key := batches[i][j];
          KeysOfTrips(key, TripOf(key));
          if key in store && now < store[key].expires && store[key].value.van == van {
            return Some(store[key].value);
          }
          assert before + batches[i][..j] + [key] == before + batches[i][..j + 1];
        }
        assert batches[i][..|batches[i]|] == batches[i] && batches[..i + 1][..i] == batches[..i];
      }
      assert batches[..|batches|] == batches;
      NothingFound(store, batches, van, now);
      r := None;
    }

    // DEL: how many of the keys were there.
    method Del(keys: seq<string>, now: nat) returns (n: nat)
      modifies this
      ensures store == old(store) - (set k | k in keys)
      ensures n == |set k | k in old(store) && now < old(store)[k].expires && k in keys|
    {
      n := |set k | k in store && now < store[k].expires && k in keys|;
      store := store - (set k | k in keys);
    }

    method DeletePattern(pattern: string -> bool, batches: seq<seq<string>>, now: nat) returns (deleted: nat)
      requires Covers(batches, store, pattern, now)
      modifies this
      ensures deleted == |Matching(old(store), pattern, now)|
      ensures forall k: string :: Get(store, k, now) == if pattern(k) then None else Get(old(store), k, now)
    {
      deleted := 0;
      ghost var was := store;
      for i := 0 to |batches|
        invariant store == was - (set k | k in Scanned(batches[..i]))
        invariant deleted == |set k | k in Matching(was, pattern, now) && k in Scanned(batches[..i])|
      {
        ghost var before := Scanned(batches[..i]);
        if |batches[i]| > 0 {
          var n := Del(batches[i], now);
          deleted := deleted + n;
        }
        assert batches[..i + 1][..i] == batches[..i];
        assert Scanned(batches[..i + 1]) == before + batches[i];
        assert forall k <- batches[i] :: pattern(k);
        DeletionsAdd(was, pattern, now, before, batches[i]);
      }
      assert batches[..|batches|] == batches;
      forall k: string
        ensures k in Matching(was, pattern, now) ==> k in Scanned(batches)
        ensures k in Scanned(batches) ==> pattern(k)
      {
        CoverIsScan(batches, was, pattern, now, k);
      }
      assert Matching(was, pattern, now) == set k | k in Matching(was, pattern, now) && k in Scanned(batches);
    }
  }

  function Matching(store: Store, pattern: string -> bool, now: nat): set<string> {
    set k | k in store && now < store[k].expires && pattern(k)
  }

  lemma DeletionsAdd(store: Store, pattern: string -> bool, now: nat, before: seq<string>, batch: seq<string>)
    requires forall k <- batch :: pattern(k)
    ensures var left := store - (set k | k in before);
            |set k | k in Matching(store, pattern, now) && k in before + batch|
            == |set k | k in Matching(store, pattern, now) && k in before|
               + |set k | k in left && now < left[k].expires && k in batch|
  {
    var left := store - (set k | k in before);
    var all := set k | k in Matching(store, pattern, now) && k in before + batch;
    var earlier := set k | k in Matching(store, pattern, now) && k in before;
    var gone := set k | k in left && now < left[k].expires && k in batch;
    assert left.Keys == set k | k in store && k !in before;
    assert all == earlier + gone;
    DisjointSize(earlier, gone);
  }

  lemma DisjointSize(a: set<string>, b: set<string>)
    requires a !! b
    ensures |a + b| == |a| + |b|
  {
  }
}
