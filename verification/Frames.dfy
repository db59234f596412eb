// Which tables one call can touch.
module Frames {
  import opened Schema
  import opened Handlers

  lemma TripFrame(w: World, op: TripOp, l: Locals, school: Id, now: nat, newId: Id)
    ensures var w' := ExecTrip(w, op, l, school, now, newId).world;
            w'.users == w.users && w'.vans == w.vans && w'.students == w.students && w'.routes == w.routes
    ensures var w' := ExecTrip(w, op, l, school, now, newId).world;
            (op.WriteTrip? || op.InsertTrip? || w'.trips == w.trips) &&
            (op.InsertLog? || w'.logs == w.logs) &&
            (op.InsertAlert? || w'.alerts == w.alerts) &&
            (op.DeleteActive? || op.SetActive? || w'.active == w.active)
  {
  }

  lemma PersonFrame(w: World, op: PersonOp, l: Locals, school: Id, newId: Id)
    ensures var w' := ExecPerson(w, op, l, school, newId).world;
            w'.routes == w.routes && w'.trips == w.trips && w'.logs == w.logs && w'.alerts == w.alerts && w'.active == w.active
    ensures var w' := ExecPerson(w, op, l, school, newId).world;
            (op.UnassignEverywhere? || w'.vans == w.vans) &&
            (op.InsertDriver? || op.WriteDriver? || op.RetireDriver? || w'.users == w.users) &&
            (op.InsertStudent? || op.ClearRoster? || op.WriteStudent? || op.RetireStudent? || w'.students == w.students)
  {
  }

  lemma VanFrame(w: World, op: VanOp, l: Locals, school: Id, newId: Id)
    ensures var w' := ExecVan(w, op, l, school, newId).world;
            w' == w.(vans := w'.vans)
  {
  }
}
