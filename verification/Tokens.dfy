// Refresh-token rotation with reuse detection: refresh, logout and changePassword as the database
// calls they await, and any number of them in flight over one token table.
module Tokens {
  import opened Options

  type Id = nat
  type Token = nat

  // usedAt and revokedAt are only ever tested for null. A token is stored under its own value (@unique).
  datatype Row = Row(user: Id, school: Id, expires: nat, used: bool, revoked: bool) {
    predicate Live() {
      !used && !revoked
    }
  }

  datatype Account = Account(school: Id, active: bool)

  datatype Table = Table(rows: map<Token, Row>, users: map<Id, Account>)

  // genuine is the verdict of the JWT check, correct that of the password hash.
  datatype Request =
    | Refresh(token: Token, genuine: bool)
    | Logout(given: Option<Token>, user: Id, school: Id)
    | ChangePassword(user: Id, school: Id, correct: bool)

  datatype Answer =
    | Rotated(issued: Token)
    | Done
    | Invalid
    | Unknown
    | Expired
    | Revoked
    | ReuseDetected
    | Deactivated
    | NoUser
    | WrongPassword
    | DatabaseError

  // What a handler still has to do and what it has read so far.
  datatype Thread =
    | Opened(req: Request)
    | HasRow(token: Token, row: Row)
    | HasUser(token: Token, user: Id, school: Id)
    | Consumed(token: Token, user: Id, school: Id)
    | MustRehash(user: Id, school: Id)
    | MustRevoke(user: Id, school: Id, answer: Answer)
  {
    // A refresh of t that has passed the checks on its row and not yet answered.
    predicate Holds(t: Token) {
      (HasRow? || HasUser? || Consumed?) && token == t
    }

    predicate Refreshes(t: Token) {
      Holds(t) || (Opened? && req.Refresh? && req.token == t)
    }
  }

  datatype Step = Next(table: Table, thread: Thread) | Stop(table: Table, answer: Answer)

  // updateMany where userId and schoolId.
  function RevokeAll(tb: Table, user: Id, school: Id): Table {
    tb.(rows := map t | t in tb.rows ::
      if tb.rows[t].user == user && tb.rows[t].school == school then tb.rows[t].(revoked := true) else tb.rows[t])
  }

  function ReadToken(tb: Table, t: Token, now: nat): Step {
    if t !in tb.rows then Stop(tb, Unknown)
    else
      var row := tb.rows[t];
      if row.expires < now then Stop(tb, Expired)
      else if row.revoked then Stop(tb, Revoked)
      else if row.used then Next(tb, MustRevoke(row.user, row.school, ReuseDetected))
      else Next(tb, HasRow(t, row))
  }

  function LogoutRows(tb: Table, t: Token, user: Id, school: Id): Table {
    if t in tb.rows && tb.rows[t].user == user && tb.rows[t].school == school
    then tb.(rows := tb.rows[t := tb.rows[t].(used := true, revoked := true)])
    else tb
  }

  // One database call of a handler at time now; issued is the token it would issue.
  function Call(tb: Table, th: Thread, now: nat, issued: Token, lifetime: nat): Step {
    match th
    case Opened(Refresh(t, genuine)) =>
      if genuine then ReadToken(tb, t, now) else Stop(tb, Invalid)
    case Opened(Logout(given, user, school)) =>
      Stop(if given.Some? then LogoutRows(tb, given.value, user, school) else tb, Done)
    case Opened(ChangePassword(user, school, correct)) =>
      if user !in tb.users || tb.users[user].school != school then Stop(tb, NoUser)
      else if !correct then Stop(tb, WrongPassword)
      else Next(tb, MustRehash(user, school))
    case HasRow(t, row) =>
      if row.user in tb.users && tb.users[row.user].active
      then Next(tb, HasUser(t, row.user, tb.users[row.user].school))
      else Stop(tb, Deactivated)
    case HasUser(t, user, school) =>
      if t in tb.rows then Next(tb.(rows := tb.rows[t := tb.rows[t].(used := true)]), Consumed(t, user, school))
      else Stop(tb, DatabaseError)
    case Consumed(t, user, school) =>
      if issued in tb.rows then Stop(tb, DatabaseError)
      else Stop(tb.(rows := tb.rows[issued := Row(user, school, now + lifetime, false, false)]), Rotated(issued))
    case MustRehash(user, school) => Next(tb, MustRevoke(user, school, Done))
    case MustRevoke(user, school, answer) => Stop(RevokeAll(tb, user, school), answer)
  }

  // A handler running with nothing in between, on one reading of the clock.
  function Finish(tb: Table, th: Thread, now: nat, issued: Token, lifetime: nat): (Table, Answer)
    decreases match th { case Opened(_) => 4 case HasRow(_, _) => 3 case HasUser(_, _, _) => 2
                         case MustRehash(_, _) => 2 case Consumed(_, _, _) => 1 case MustRevoke(_, _, _) => 1 }
  {
    match Call(tb, th, now, issued, lifetime)
    case Stop(tb', answer) => (tb', answer)
    case Next(tb', th') => Finish(tb', th', now, issued, lifetime)
  }

  function Serve(tb: Table, req: Request, now: nat, issued: Token, lifetime: nat): (Table, Answer) {
    Finish(tb, Opened(req), now, issued, lifetime)
  }

  // A refresh of from that answered with the token to.
  datatype Grant = Grant(from: Token, to: Token)

  datatype Sys = Sys(table: Table, flight: map<Id, Thread>, answers: map<Id, Answer>, grants: seq<Grant>, clock: nat,
                     lifetime: nat)

  // Issue and Activate are other writers: a row stored for a user outside these handlers, and an
  // administrator changing isActive.
  datatype Event =
    | Arrive(id: Id, req: Request)
    | Advance(id: Id, elapsed: nat, issued: Token)
    | Issue(token: Token, user: Id, expires: nat)
    | Activate(user: Id, active: bool)

  function After(s: Sys, id: Id, r: Step): Sys
    requires id in s.flight
  {
    match r
    case Next(tb, th) => s.(table := tb, flight := s.flight[id := th])
    case Stop(tb, answer) =>
      var th := s.flight[id];
      s.(table := tb, flight := s.flight - {id}, answers := s.answers[id := answer],
         grants := if th.Consumed? && answer.Rotated? then s.grants + [Grant(th.token, answer.issued)] else s.grants)
  }

  function Tick(s: Sys, ev: Event): Sys {
    match ev
    case Arrive(id, req) =>
      if id in s.flight || id in s.answers then s else s.(flight := s.flight[id := Opened(req)])
    case Advance(id, elapsed, issued) =>
      var s' := s.(clock := s.clock + elapsed);
      if id in s.flight then After(s', id, Call(s.table, s.flight[id], s'.clock, issued, s.lifetime)) else s'
    case Issue(t, user, expires) =>
      if t in s.table.rows || user !in s.table.users then s
      else s.(table := s.table.(rows := s.table.rows[t := Row(user, s.table.users[user].school, expires, false, false)]))
    case Activate(user, active) =>
      if user in s.table.users
      then s.(table := s.table.(users := s.table.users[user := s.table.users[user].(active := active)]))
      else s
  }

  function Run(s: Sys, evs: seq<Event>): Sys {
    if evs == [] then s else Tick(Run(s, evs[..|evs| - 1]), evs[|evs| - 1])
  }

  lemma {:induction false} RunJoins(s: Sys, xs: seq<Event>, ys: seq<Event>)
    ensures Run(s, xs + ys) == Run(Run(s, xs), ys)
    decreases |ys|
  {
    if ys == [] {
      assert xs + ys == xs;
    } else {
      var n := |ys| - 1;
      RunJoins(s, xs, ys[..n]);
      assert (xs + ys)[..|xs + ys| - 1] == xs + ys[..n];
    }
  }
}
