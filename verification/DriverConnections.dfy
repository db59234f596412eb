// The WebSocket connection records of drivers: one key per connection and a reverse key per driver, both
// kept for an hour.
module DriverConnections {
  import opened Options

  type Id = nat

  const TTL := 3_600_000

  datatype Record = Record(driver: Id, van: Id, expires: nat)

  datatype Pointer = Pointer(connection: Id, expires: nat)

  // svt:connection:{id} and svt:driver:{id}:connection
  datatype Keys = Keys(records: map<Id, Record>, pointers: map<Id, Pointer>)

  datatype Found = Found(connection: Id, van: Id)

  datatype Event =
    | Set(driver: Id, connection: Id, van: Id, elapsed: nat)
    | Remove(connection: Id, elapsed: nat)

  datatype State = State(keys: Keys, clock: nat)

  predicate LiveRecord(k: Keys, c: Id, now: nat) {
    c in k.records && now < k.records[c].expires
  }

  predicate LivePointer(k: Keys, d: Id, now: nat) {
    d in k.pointers && now < k.pointers[d].expires
  }

  function AfterSet(k: Keys, d: Id, c: Id, van: Id, now: nat): Keys {
    Keys(k.records[c := Record(d, van, now + TTL)], k.pointers[d := Pointer(c, now + TTL)])
  }

  // The reverse key of the record's driver goes too, whichever connection it names by then.
  function AfterRemove(k: Keys, c: Id, now: nat): Keys {
    Keys(k.records - {c}, if LiveRecord(k, c, now) then k.pointers - {k.records[c].driver} else k.pointers)
  }

  function Lookup(k: Keys, d: Id, now: nat): Option<Found> {
    if LivePointer(k, d, now) && LiveRecord(k, k.pointers[d].connection, now)
    then Some(Found(k.pointers[d].connection, k.records[k.pointers[d].connection].van))
    else None
  }

  function Tick(s: State, ev: Event): State {
    var now := s.clock + ev.elapsed;
    match ev
    case Set(d, c, van, _) => State(AfterSet(s.keys, d, c, van, now), now)
    case Remove(c, _) => State(AfterRemove(s.keys, c, now), now)
  }

  function Run(s: State, evs: seq<Event>): State {
    if evs == [] then s else Tick(Run(s, evs[..|evs| - 1]), evs[|evs| - 1])
  }

  const START := State(Keys(map[], map[]), 0)

  // A connection id is only ever used by one driver.
  predicate OwnConnections(evs: seq<Event>) {
    forall i, j | 0 <= i < |evs| && 0 <= j < |evs| && evs[i].Set? && evs[j].Set? && evs[i].connection == evs[j].connection ::
      evs[i].driver == evs[j].driver
  }

  predicate Owns(evs: seq<Event>, d: Id, c: Id) {
    exists i | 0 <= i < |evs| :: evs[i].Set? && evs[i].driver == d && evs[i].connection == c
  }

  // The driver's last connection in the run with the moment it expires, forgotten as soon as any
  // connection record of the driver is removed while it lasts.
  function Current(evs: seq<Event>, d: Id): Option<(Id, Id, nat)> {
    if evs == [] then None
    else
      var n := |evs| - 1;
      var now := Run(START, evs).clock;
      match evs[n]
      case Set(d', c, van, _) => if d' == d then Some((c, van, now + TTL)) else Current(evs[..n], d)
      case Remove(c, _) =>
        var k := Run(START, evs[..n]).keys;
        if LiveRecord(k, c, now) && k.records[c].driver == d then None else Current(evs[..n], d)
  }

  // What the keys hold for a driver is what Current says.
  predicate Agrees(s: State, evs: seq<Event>, d: Id) {
    match Current(evs, d)
    case None => d !in s.keys.pointers
    case Some((c, van, expires)) =>
      d in s.keys.pointers && s.keys.pointers[d] == Pointer(c, expires) &&
      (s.clock < expires ==> c in s.keys.records && s.keys.records[c] == Record(d, van, expires))
  }

  // Records belong to the driver that set them.
  predicate RecordsOwned(s: State, evs: seq<Event>) {
    forall c <- s.keys.records :: Owns(evs, s.keys.records[c].driver, c)
  }

  lemma OwnsGrows(evs: seq<Event>, d: Id, c: Id)
    requires evs != [] && Owns(evs[..|evs| - 1], d, c)
    ensures Owns(evs, d, c)
  {
    var i :| 0 <= i < |evs| - 1 && evs[..|evs| - 1][i].Set? && evs[..|evs| - 1][i].driver == d && evs[..|evs| - 1][i].connection == c;
    assert evs[i].Set? && evs[i].driver == d && evs[i].connection == c;
  }

  lemma {:induction false} RecordsAreOwned(evs: seq<Event>)
    ensures RecordsOwned(Run(START, evs), evs)
  {
    if evs != [] {
      var n := |evs| - 1;
      RecordsAreOwned(evs[..n]);
      var s, s' := Run(START, evs[..n]), Run(START, evs);
      forall c <- s'.keys.records ensures Owns(evs, s'.keys.records[c].driver, c) {
        if evs[n].Set? && evs[n].connection == c {
          assert evs[n].Set? && evs[n].driver == s'.keys.records[c].driver;
        } else {
          OwnsGrows(evs, s.keys.records[c].driver, c);
        }
      }
    }
  }

  lemma OneOwner(evs: seq<Event>, c: Id, d: Id, e: Id)
    requires OwnConnections(evs) && Owns(evs, d, c) && Owns(evs, e, c)
    ensures d == e
  {
  }

  lemma {:induction false} KeysFollowCurrent(evs: seq<Event>, d: Id)
    requires OwnConnections(evs)
    ensures Agrees(Run(START, evs), evs, d)
    ensures Current(evs, d).Some? ==> Owns(evs, d, Current(evs, d).value.0)
  {
    if evs != [] {
      var n := |evs| - 1;
      assert forall i | 0 <= i < n :: evs[..n][i] == evs[i];
      KeysFollowCurrent(evs[..n], d);
      RecordsAreOwned(evs[..n]);
      var before := Current(evs[..n], d);
      if before.Some? {
        OwnsGrows(evs, d, before.value.0);
      }
      if evs[n].Set? {
        assert Owns(evs, evs[n].driver, evs[n].connection);
        if before.Some? && before.value.0 == evs[n].connection {
          OneOwner(evs, evs[n].connection, d, evs[n].driver);
        }
      }
    }
  }

  // Over any run in which connection ids are not shared, a driver's lookup finds the connection it set
  // last, for an hour, until any connection of the driver is removed.
  lemma LookupFindsTheCurrent(evs: seq<Event>, d: Id)
    requires OwnConnections(evs)
    ensures var s := Run(START, evs);
            Lookup(s.keys, d, s.clock)
            == match Current(evs, d)
               case Some((c, van, expires)) => if s.clock < expires then Some(Found(c, van)) else None
               case None => None
  {
    KeysFollowCurrent(evs, d);
  }

  // A driver reconnects, and the old connection is removed after that: the live connection is no longer
  // found, unless the two ids are the same.
  lemma StaleRemovalHidesTheLiveConnection(k: Keys, d: Id, c1: Id, c2: Id, van: Id, now: nat)
    ensures var k1 := AfterSet(k, d, c1, van, now);
            var k2 := AfterSet(k1, d, c2, van, now);
            var k3 := AfterRemove(k2, c1, now);
            Lookup(k2, d, now) == Some(Found(c2, van)) && Lookup(k3, d, now) == None &&
            (LiveRecord(k3, c2, now) <==> c1 != c2)
  {
  }

  // A connection is found for an hour after it was set, and setting it leaves the lookup of every driver on
  // another connection alone.
  lemma ConnectionsLastAnHour(k: Keys, d: Id, c: Id, van: Id, now: nat, later: nat, e: Id)
    ensures Lookup(AfterSet(k, d, c, van, now), d, later) == if later < now + 3600 * 1000 then Some(Found(c, van)) else None
    ensures e != d && (LivePointer(k, e, later) ==> k.pointers[e].connection != c) ==>
              Lookup(AfterSet(k, d, c, van, now), e, later) == Lookup(k, e, later)
  {
  }

  class ConnectionStore {
    var keys: Keys

    method SetDriverConnection(driver: Id, connection: Id, van: Id, now: nat)
      modifies this
      ensures keys == AfterSet(old(keys), driver, connection, van, now)
    {
      keys := keys.(records := keys.records[connection := Record(driver, van, now + TTL)]);
      keys := keys.(pointers := keys.pointers[driver := Pointer(connection, now + TTL)]);
    }

    method RemoveDriverConnection(connection: Id, now: nat)
      modifies this
      ensures keys == AfterRemove(old(keys), connection, now)
    {
      var data := if LiveRecord(keys, connection, now) then Some(keys.records[connection]) else None;
      keys := keys.(records := keys.records - {connection});
      if data.Some? {
        keys := keys.(pointers := keys.pointers - {data.value.driver});
      }
    }

    method GetDriverConnection(driver: Id, now: nat) returns (r: Option<Found>)
      ensures r == Lookup(keys, driver, now)
    {
      if !LivePointer(keys, driver, now) {
        return None;
      }
      var connection := keys.pointers[driver].connection;
      if !LiveRecord(keys, connection, now) {
        return None;
      }
      r := Some(Found(connection, keys.records[connection].van));
    }
  }
}
