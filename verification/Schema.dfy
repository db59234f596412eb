// The rows the handlers read and write, and the two Redis key families they keep next to them.
// Columns that no check reads (names, notes, coordinates of a row, capacities) are not modelled.
module Schema {
  import opened Options

  // UUIDs, idempotency keys and positions are opaque.
  type Id = nat
  type Location = nat

  datatype Role = ADMIN | DRIVER | PARENT

  datatype Status = NOT_STARTED | IN_PROGRESS | COMPLETED | CANCELLED | SOS_ACTIVE

  datatype Action = PENDING | PICKED_UP | DROPPED_OFF | ABSENT {
    predicate Boards() {
      this == PICKED_UP || this == DROPPED_OFF
    }
  }

  datatype AlertKind = SOS | SOS_RESOLVED

  datatype User = User(school: Id, email: string, role: Role, active: bool, deleted: bool)

  datatype Van = Van(school: Id, plate: string, driver: Option<Id>, active: bool, deleted: bool)

  datatype Student = Student(school: Id, parent: Id, van: Option<Id>, active: bool, deleted: bool)

  datatype Route = Route(school: Id, active: bool, deleted: bool)

  datatype Trip = Trip(school: Id, van: Id, route: Option<Id>, driver: Id, status: Status,
                       actualStart: Option<nat>, actualEnd: Option<nat>, createdAt: nat, deleted: bool)

  // No handler soft-deletes a pickup log, so the deletedAt tests on them always pass.
  datatype PickupLog = PickupLog(school: Id, trip: Id, student: Id, action: Action, key: Option<Id>, takenAt: nat)

  datatype Alert = Alert(school: Id, trip: Id, van: Id, kind: AlertKind)

  // Value of svt:trip:{id}:active and of svt:van:{id}:location, each with the time it expires.
  datatype ActiveKey = ActiveKey(van: Id, school: Id, expires: nat)

  datatype Fix = Fix(school: Id, loc: Location, expires: nat)

  datatype World = World(users: map<Id, User>, vans: map<Id, Van>, students: map<Id, Student>,
                         routes: map<Id, Route>, trips: map<Id, Trip>,
                         logs: seq<PickupLog>, alerts: seq<Alert>,
                         active: map<Id, ActiveKey>, fixes: map<Id, Fix>)

  // Milliseconds; 86400 s for an active trip, GPS_LOCATION_TTL_SECONDS (default 300) for a position.
  const ACTIVE_TRIP_TTL := 86_400_000
  const LOCATION_TTL := 300_000

  // The school of a referenced row.
  predicate UserIn(w: World, u: Id, school: Id) {
    u in w.users && w.users[u].school == school
  }

  predicate VanIn(w: World, v: Id, school: Id) {
    v in w.vans && w.vans[v].school == school
  }

  predicate StudentIn(w: World, s: Id, school: Id) {
    s in w.students && w.students[s].school == school
  }

  predicate RouteIn(w: World, r: Id, school: Id) {
    r in w.routes && w.routes[r].school == school
  }

  predicate TripIn(w: World, t: Id, school: Id) {
    t in w.trips && w.trips[t].school == school
  }
}
