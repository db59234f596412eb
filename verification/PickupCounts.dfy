// The pickupCount of findAll and the pickupLogCount of findOne: both count every attendance row.
module PickupCounts {
  import opened Schema
  import opened Machine
  import opened Lifecycle

  // groupBy tripId over the whole table, then the entry of the trip.
  function Grouped(logs: seq<PickupLog>): map<Id, nat> {
    if logs == [] then map[]
    else
      var counts, t := Grouped(logs[..|logs| - 1]), logs[|logs| - 1].trip;
      counts[t := (if t in counts then counts[t] else 0) + 1]
  }

  function PickupCount(logs: seq<PickupLog>, trip: Id): nat {
    if trip in Grouped(logs) then Grouped(logs)[trip] else 0
  }

  function Aboard(logs: seq<PickupLog>, trip: Id): set<Id> {
    set log | log in logs && log.trip == trip && log.action.Boards() :: log.student
  }

  function Others(logs: seq<PickupLog>, trip: Id): nat {
    if logs == [] then 0
    else
      var last := logs[|logs| - 1];
      Others(logs[..|logs| - 1], trip) + One(last.trip == trip && !last.action.Boards())
  }

  lemma ShapePrefix(logs: seq<PickupLog>)
    requires LogShape(logs) && logs != []
    ensures LogShape(logs[..|logs| - 1])
  {
    var init := logs[..|logs| - 1];
    assert forall i | 0 <= i < |init| :: init[i] == logs[i];
  }

  lemma AboardGrows(logs: seq<PickupLog>, trip: Id)
    requires LogShape(logs) && logs != []
    ensures var init, last := logs[..|logs| - 1], logs[|logs| - 1];
            if last.trip == trip && last.action.Boards()
            then last.student !in Aboard(init, trip) && Aboard(logs, trip) == Aboard(init, trip) + {last.student}
            else Aboard(logs, trip) == Aboard(init, trip)
  {
    var init, last := logs[..|logs| - 1], logs[|logs| - 1];
    assert logs == init + [last];
    assert forall i | 0 <= i < |init| :: logs[i] == init[i];
  }

  // With at most one boarding log a student, the count is the students aboard plus the absence rows.
  lemma {:induction false} CountSplits(logs: seq<PickupLog>, trip: Id)
    requires LogShape(logs)
    ensures PickupCount(logs, trip) == |Aboard(logs, trip)| + Others(logs, trip)
  {
    if logs != [] {
      ShapePrefix(logs);
      CountSplits(logs[..|logs| - 1], trip);
      AboardGrows(logs, trip);
    }
  }

  // Over every clean run pickupCount is the number of students picked up or dropped off exactly when no
  // absence was recorded on the trip; each absence row adds one.
  lemma PickupCountIsHeadcountIff(w: World, clock: nat, evs: seq<Event>, trip: Id)
    requires LawfulStart(w) && CleanRun(Quiet(w, clock), evs)
    ensures var logs := Run(Quiet(w, clock), evs).world.logs;
            PickupCount(logs, trip) == |Aboard(logs, trip)| + Others(logs, trip) &&
            (PickupCount(logs, trip) == |Aboard(logs, trip)| <==> Others(logs, trip) == 0)
  {
    hide Run, CleanRun;
    CleanRunsAreLawful(w, clock, evs);
    CountSplits(Run(Quiet(w, clock), evs).world.logs, trip);
  }
}
