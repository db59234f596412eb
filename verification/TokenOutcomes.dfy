// What refresh, logout and changePassword leave behind and answer when nothing runs in between, row by row;
// how final a logout and a password change are; and what every refresh that was granted had found.
module TokenOutcomes {
  import opened Options
  import opened Tokens
  import opened Rotation

  // A refresh of an unknown, expired or revoked token changes nothing, that of a used one revokes all of the
  // user's tokens of the school, and that of a live one marks it and stores its successor.
  lemma RefreshOutcome(tb: Table, t: Token, genuine: bool, now: nat, issued: Token, lifetime: nat)
    ensures var (tb', answer) := Serve(tb, Refresh(t, genuine), now, issued, lifetime);
            if !genuine then tb' == tb && answer == Invalid
            else if t !in tb.rows then tb' == tb && answer == Unknown
            else var row := tb.rows[t];
                 if row.expires < now then tb' == tb && answer == Expired
                 else if row.revoked then tb' == tb && answer == Revoked
                 else if row.used
                 then answer == ReuseDetected && RevokedOf(tb, tb', row.user, row.school)
                 else if row.user !in tb.users || !tb.users[row.user].active then tb' == tb && answer == Deactivated
                 else var marked := tb.rows[t := Row(row.user, row.school, row.expires, true, false)];
                      if issued in tb.rows then tb' == Table(marked, tb.users) && answer == DatabaseError
                      else tb' == Table(marked[issued := Row(row.user, tb.users[row.user].school, now + lifetime, false, false)], tb.users) &&
                           answer == Rotated(issued)
  {
    var th := Opened(Refresh(t, genuine));
    var r := Call(tb, th, now, issued, lifetime);
    if r.Next? {
      var row := tb.rows[t];
      assert Serve(tb, Refresh(t, genuine), now, issued, lifetime) == Finish(tb, r.thread, now, issued, lifetime);
      if !row.used {
        HolderFinishes(tb, t, row, now, issued, lifetime);
      }
    }
  }

  // The tokens of the user and school are revoked, and no other row is touched.
  predicate RevokedOf(tb: Table, tb': Table, user: Id, school: Id) {
    tb'.users == tb.users && tb'.rows.Keys == tb.rows.Keys &&
    forall t <- tb.rows :: var row := tb.rows[t];
      tb'.rows[t] == if row.user == user && row.school == school then Row(user, school, row.expires, row.used, true) else row
  }

  lemma HolderFinishes(tb: Table, t: Token, row: Row, now: nat, issued: Token, lifetime: nat)
    requires t in tb.rows && tb.rows[t] == row && !row.revoked
    ensures var (tb', answer) := Finish(tb, HasRow(t, row), now, issued, lifetime);
            if row.user !in tb.users || !tb.users[row.user].active then tb' == tb && answer == Deactivated
            else var marked := tb.rows[t := Row(row.user, row.school, row.expires, true, false)];
                 if issued in tb.rows then tb' == Table(marked, tb.users) && answer == DatabaseError
                 else tb' == Table(marked[issued := Row(row.user, tb.users[row.user].school, now + lifetime, false, false)], tb.users) &&
                      answer == Rotated(issued)
  {
    var r := Call(tb, HasRow(t, row), now, issued, lifetime);
    if r.Next? {
      var r2 := Call(tb, r.thread, now, issued, lifetime);
      assert Finish(tb, HasRow(t, row), now, issued, lifetime) == Finish(tb, r.thread, now, issued, lifetime)
          == Finish(r2.table, r2.thread, now, issued, lifetime);
    }
  }

  // A refresh is granted exactly for a genuine token that is known, unexpired, unused and not revoked, whose
  // user is active, given an unused new token.
  lemma RefreshIsGrantedIff(tb: Table, t: Token, genuine: bool, now: nat, issued: Token, lifetime: nat)
    ensures Serve(tb, Refresh(t, genuine), now, issued, lifetime).1.Rotated? <==>
            genuine && t in tb.rows && now <= tb.rows[t].expires && !tb.rows[t].used && !tb.rows[t].revoked &&
            tb.rows[t].user in tb.users && tb.users[tb.rows[t].user].active && issued !in tb.rows
  {
    hide Serve;
    RefreshOutcome(tb, t, genuine, now, issued, lifetime);
  }

  // A logout revokes and uses up the token it is given if it is the user's own, and touches no other row.
  lemma LogoutOutcome(tb: Table, given: Option<Token>, user: Id, school: Id, now: nat, issued: Token, lifetime: nat)
    ensures Serve(tb, Logout(given, user, school), now, issued, lifetime)
            == (if given.Some? && given.value in tb.rows && tb.rows[given.value].user == user && tb.rows[given.value].school == school
                then Table(tb.rows[given.value := Row(user, school, tb.rows[given.value].expires, true, true)], tb.users)
                else tb, Done)
  {
  }

  // A password change answers Done exactly for a known user of the school with the right password, and then
  // has revoked all of that user's tokens of the school and no others.
  lemma ChangePasswordOutcome(tb: Table, user: Id, school: Id, correct: bool, now: nat, issued: Token, lifetime: nat)
    ensures var (tb', answer) := Serve(tb, ChangePassword(user, school, correct), now, issued, lifetime);
            if !(user in tb.users && tb.users[user].school == school) then tb' == tb && answer == NoUser
            else if !correct then tb' == tb && answer == WrongPassword
            else answer == Done && RevokedOf(tb, tb', user, school)
  {
    if user in tb.users && tb.users[user].school == school && correct {
      assert Serve(tb, ChangePassword(user, school, correct), now, issued, lifetime)
          == Finish(tb, MustRehash(user, school), now, issued, lifetime)
          == Finish(tb, MustRevoke(user, school, Done), now, issued, lifetime);
    }
  }

  // ---- How final they are ----

  lemma LogoutRuns(s: Sys, id: Id, t: Token, elapsed: nat)
    requires id !in s.flight && id !in s.answers && t in s.table.rows
    ensures var row := s.table.rows[t];
            var s' := Run(s, [Arrive(id, Logout(Some(t), row.user, row.school)), Advance(id, elapsed, 0)]);
            s'.flight == s.flight && s'.answers == s.answers[id := Done] && s'.grants == s.grants &&
            s'.table == Table(s.table.rows[t := Row(row.user, row.school, row.expires, true, true)], s.table.users)
  {
    var row := s.table.rows[t];
    RunTwo(s, Arrive(id, Logout(Some(t), row.user, row.school)), Advance(id, elapsed, 0));
  }

  // After a logout of a token by its user, whatever else is in flight, the token is never refreshed again in
  // any continuation if and only if no refresh had passed its checks by then.
  lemma LogoutIsFinalIff(s: Sys, id: Id, t: Token, elapsed: nat)
    requires WellFormed(s) && id !in s.flight && id !in s.answers && t in s.table.rows
    ensures var row := s.table.rows[t];
            var s' := Run(s, [Arrive(id, Logout(Some(t), row.user, row.school)), Advance(id, elapsed, 0)]);
            (forall evs: seq<Event> :: StaysDead(s', evs, {t})) <==> forall o <- s.flight :: !s.flight[o].Holds(t)
  {
    hide Run, StaysDead, WellFormed;
    var row := s.table.rows[t];
    var evs := [Arrive(id, Logout(Some(t), row.user, row.school)), Advance(id, elapsed, 0)];
    LogoutRuns(s, id, t, elapsed);
    RowsCarryTheirSchool(s, evs);
    RevocationIsFinalIff(Run(s, evs), {t});
  }

  lemma ChangeRuns(s: Sys, id: Id, user: Id, elapsed: nat)
    requires id !in s.flight && id !in s.answers && user in s.table.users
    ensures var step := Advance(id, 0, 0);
            var s' := Run(s, [Arrive(id, ChangePassword(user, s.table.users[user].school, true)), Advance(id, elapsed, 0), step, step]);
            s'.flight == s.flight && s'.answers == s.answers[id := Done] &&
            s'.table == RevokeAll(s.table, user, s.table.users[user].school)
  {
    var change := Arrive(id, ChangePassword(user, s.table.users[user].school, true));
    var first, step := Advance(id, elapsed, 0), Advance(id, 0, 0);
    RunThree(s, change, first, step);
    assert [change, first, step, step][..3] == [change, first, step];
    hide RevokeAll;
  }

  // After a password change, none of the tokens the user had is ever refreshed again, nor has any a
  // descendant, if and only if no refresh of one of them had passed its checks by then.
  lemma PasswordChangeIsFinalIff(s: Sys, id: Id, user: Id, elapsed: nat)
    requires WellFormed(s) && id !in s.flight && id !in s.answers && user in s.table.users
    ensures var step, had := Advance(id, 0, 0), TokensOf(s.table, user);
            var s' := Run(s, [Arrive(id, ChangePassword(user, s.table.users[user].school, true)), Advance(id, elapsed, 0), step, step]);
            (forall evs: seq<Event> :: StaysDead(s', evs, had)) <==> forall o <- s.flight, t <- had :: !s.flight[o].Holds(t)
  {
    hide Run, StaysDead, WellFormed, RevokeAll;
    var step := Advance(id, 0, 0);
    var evs := [Arrive(id, ChangePassword(user, s.table.users[user].school, true)), Advance(id, elapsed, 0), step, step];
    ChangeRuns(s, id, user, elapsed);
    RowsCarryTheirSchool(s, evs);
    RevocationReachesEveryRow(s, user);
    RevocationIsFinalIff(Run(s, evs), TokensOf(s.table, user));
  }

  // ---- What a granted refresh had found ----

  // The i-th event is the read of t by a refresh that finds it unexpired, unused and not revoked.
  ghost predicate ReadAt(s: Sys, evs: seq<Event>, i: nat, t: Token) {
    i < |evs| && evs[i].Advance? &&
    var at := Run(s, evs[..i]);
    evs[i].id in at.flight && at.flight[evs[i].id] == Opened(Refresh(t, true)) && t in at.table.rows &&
    at.clock + evs[i].elapsed <= at.table.rows[t].expires && !at.table.rows[t].used && !at.table.rows[t].revoked
  }

  // At the j-th event a refresh that has read t finds its user active.
  ghost predicate AdmittedAt(s: Sys, evs: seq<Event>, j: nat, t: Token) {
    j < |evs| && evs[j].Advance? &&
    var at := Run(s, evs[..j]);
    evs[j].id in at.flight && at.flight[evs[j].id].HasRow? && at.flight[evs[j].id].token == t &&
    var user := at.flight[evs[j].id].row.user;
    user in at.table.users && at.table.users[user].active
  }

  ghost predicate Read(s: Sys, evs: seq<Event>, t: Token) {
    exists i: nat :: ReadAt(s, evs, i, t)
  }

  ghost predicate Admitted(s: Sys, evs: seq<Event>, t: Token) {
    exists i: nat, j: nat :: i < j && ReadAt(s, evs, i, t) && AdmittedAt(s, evs, j, t)
  }

  // What the refresh goes by was read in the run.
  ghost predicate Founded(s: Sys, evs: seq<Event>, th: Thread) {
    match th
    case HasRow(t, _) => Read(s, evs, t)
    case HasUser(t, _, _) => Admitted(s, evs, t)
    case Consumed(t, _, _) => Admitted(s, evs, t)
    case _ => true
  }

  ghost predicate Earned(s: Sys, evs: seq<Event>) {
    var at := Run(s, evs);
    (forall id <- at.flight :: Founded(s, evs, at.flight[id])) && forall g <- at.grants :: Admitted(s, evs, g.from)
  }

  lemma ReadLasts(s: Sys, evs: seq<Event>, ev: Event, t: Token)
    ensures forall i: nat :: ReadAt(s, evs, i, t) ==> ReadAt(s, evs + [ev], i, t)
    ensures forall j: nat :: AdmittedAt(s, evs, j, t) ==> AdmittedAt(s, evs + [ev], j, t)
    ensures Read(s, evs, t) ==> Read(s, evs + [ev], t)
    ensures Admitted(s, evs, t) ==> Admitted(s, evs + [ev], t)
  {
    hide Run;
    assert forall i | 0 <= i <= |evs| :: (evs + [ev])[..i] == evs[..i];
  }

  lemma RunOn(s: Sys, evs: seq<Event>, ev: Event)
    ensures Run(s, evs + [ev]) == Tick(Run(s, evs), ev)
    ensures (evs + [ev])[..|evs|] == evs
  {
    assert (evs + [ev])[..|evs|] == evs;
  }

  // What a call leaves its own handler with.
  lemma CallEarns(s: Sys, evs: seq<Event>, ev: Event)
    requires Earned(s, evs) && ev.Advance? && ev.id in Run(s, evs).flight
    ensures var at := Run(s, evs);
            var r := Call(at.table, at.flight[ev.id], at.clock + ev.elapsed, ev.issued, at.lifetime);
            (r.Next? ==> Founded(s, evs + [ev], r.thread)) &&
            (at.flight[ev.id].Consumed? ==> Admitted(s, evs + [ev], at.flight[ev.id].token))
  {
    hide Run;
    RunOn(s, evs, ev);
    assert Founded(s, evs, Run(s, evs).flight[ev.id]);
    var th, n := Run(s, evs).flight[ev.id], |evs|;
    match th
    case Opened(Refresh(t, genuine)) =>
      var r := Call(Run(s, evs).table, th, Run(s, evs).clock + ev.elapsed, ev.issued, Run(s, evs).lifetime);
      assert r.Next? && r.thread.HasRow? ==> ReadAt(s, evs + [ev], n, t);
    case HasRow(t, row) =>
      ReadLasts(s, evs, ev, t);
      var i: nat :| ReadAt(s, evs, i, t);
      assert i < n && ReadAt(s, evs + [ev], i, t);
      assert row.user in Run(s, evs).table.users && Run(s, evs).table.users[row.user].active ==>
        AdmittedAt(s, evs + [ev], n, t);
    case HasUser(t, _, _) => ReadLasts(s, evs, ev, t);
    case Consumed(t, _, _) => ReadLasts(s, evs, ev, t);
    case _ =>
  }

  lemma TickEarns(s: Sys, evs: seq<Event>, ev: Event)
    requires Earned(s, evs)
    ensures Earned(s, evs + [ev])
  {
    hide Run, Call, Read, Admitted;
    RunOn(s, evs, ev);
    forall t: Token
      ensures (Read(s, evs, t) ==> Read(s, evs + [ev], t)) && (Admitted(s, evs, t) ==> Admitted(s, evs + [ev], t))
    {
      ReadLasts(s, evs, ev, t);
    }
    if ev.Advance? && ev.id in Run(s, evs).flight {
      CallEarns(s, evs, ev);
    }
  }

  // In every run, a refresh that was granted had read its token when it was unexpired, unused and not revoked,
  // and after that had found its user active.
  lemma {:induction false} GrantsAreEarned(s: Sys, evs: seq<Event>)
    requires s.flight == map[] && s.grants == []
    ensures Earned(s, evs)
  {
    if evs != [] {
      hide Run, Earned;
      var n := |evs| - 1;
      assert evs == evs[..n] + [evs[n]];
      GrantsAreEarned(s, evs[..n]);
      TickEarns(s, evs[..n], evs[n]);
    }
  }
}
