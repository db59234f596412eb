// What token rotation guarantees whatever is in flight, and what it loses to overlap.
module Rotation {
  import opened Sets
  import opened Tokens

  // ---- The table only gains rows and marks ----

  predicate RowGrows(a: Row, b: Row) {
    a.user == b.user && a.school == b.school && a.expires == b.expires &&
    (a.used ==> b.used) && (a.revoked ==> b.revoked)
  }

  predicate Grows(a: Table, b: Table) {
    && (forall t <- a.rows :: t in b.rows && RowGrows(a.rows[t], b.rows[t]))
    && (forall u <- a.users :: u in b.users && a.users[u].school == b.users[u].school)
  }

  lemma TickGrows(s: Sys, ev: Event)
    ensures Grows(s.table, Tick(s, ev).table)
  {
  }

  // Over any run, a row is never removed or handed to another user, and neither mark is ever cleared.
  lemma {:induction false} MarksAreNeverCleared(s: Sys, evs: seq<Event>)
    ensures Grows(s.table, Run(s, evs).table)
  {
    if evs != [] {
      var n := |evs| - 1;
      MarksAreNeverCleared(s, evs[..n]);
      TickGrows(Run(s, evs[..n]), evs[n]);
    }
  }

  // ---- Rows carry their user's school ----

  predicate RowFits(tb: Table, row: Row) {
    row.user in tb.users && row.school == tb.users[row.user].school
  }

  predicate OwnsRow(tb: Table, t: Token, user: Id, school: Id) {
    t in tb.rows && tb.rows[t].user == user && user in tb.users && tb.users[user].school == school
  }

  predicate ThreadFits(tb: Table, th: Thread) {
    match th
    case Opened(_) => true
    case HasRow(t, row) => t in tb.rows && RowGrows(row, tb.rows[t]) && RowFits(tb, row)
    case HasUser(t, user, school) => OwnsRow(tb, t, user, school)
    case Consumed(t, user, school) => OwnsRow(tb, t, user, school) && tb.rows[t].used
    case MustRehash(user, school) => user in tb.users && tb.users[user].school == school
    case MustRevoke(user, school, _) => user in tb.users && tb.users[user].school == school
  }

  // A granted token was consumed, and its successor belongs to the same user.
  predicate GrantFits(tb: Table, g: Grant) {
    g.from in tb.rows && g.to in tb.rows && tb.rows[g.from].used && tb.rows[g.from].user == tb.rows[g.to].user
  }

  predicate WellFormed(s: Sys) {
    && (forall t <- s.table.rows :: RowFits(s.table, s.table.rows[t]))
    && (forall id <- s.flight :: ThreadFits(s.table, s.flight[id]))
    && (forall g <- s.grants :: GrantFits(s.table, g))
  }

  lemma CallFits(s: Sys, id: Id, r: Step, elapsed: nat, issued: Token)
    requires WellFormed(s) && id in s.flight
    requires r == Call(s.table, s.flight[id], s.clock + elapsed, issued, s.lifetime)
    ensures forall t <- r.table.rows :: RowFits(r.table, r.table.rows[t])
    ensures r.Next? ==> ThreadFits(r.table, r.thread)
    ensures r.Stop? && s.flight[id].Consumed? && r.answer.Rotated? ==>
              GrantFits(r.table, Grant(s.flight[id].token, r.answer.issued))
  {
    assert ThreadFits(s.table, s.flight[id]);
  }

  lemma ThreadStillFits(a: Table, b: Table, th: Thread)
    requires Grows(a, b) && ThreadFits(a, th)
    ensures ThreadFits(b, th)
  {
  }

  lemma AdvanceFits(s: Sys, ev: Event)
    requires WellFormed(s) && ev.Advance? && ev.id in s.flight
    ensures WellFormed(Tick(s, ev))
  {
    hide Call, ThreadFits, RowFits, GrantFits;
    TickGrows(s, ev);
    var th := s.flight[ev.id];
    var r := Call(s.table, th, s.clock + ev.elapsed, ev.issued, s.lifetime);
    CallFits(s, ev.id, r, ev.elapsed, ev.issued);
    var s' := Tick(s, ev);
    forall id <- s'.flight ensures ThreadFits(s'.table, s'.flight[id]) {
      if id != ev.id {
        ThreadStillFits(s.table, s'.table, s.flight[id]);
      }
    }
    forall g <- s'.grants ensures GrantFits(s'.table, g) {
      if g in s.grants {
        GrantStillFits(s.table, s'.table, g);
      }
    }
  }

  lemma GrantStillFits(a: Table, b: Table, g: Grant)
    requires Grows(a, b) && GrantFits(a, g)
    ensures GrantFits(b, g)
  {
  }

  lemma TickFits(s: Sys, ev: Event)
    requires WellFormed(s)
    ensures WellFormed(Tick(s, ev))
  {
    if ev.Advance? && ev.id in s.flight {
      AdvanceFits(s, ev);
    } else {
      hide ThreadFits, GrantFits;
      TickGrows(s, ev);
      var s' := Tick(s, ev);
      forall id <- s'.flight ensures ThreadFits(s'.table, s'.flight[id]) {
        if id in s.flight {
          ThreadStillFits(s.table, s'.table, s.flight[id]);
        } else {
          OpenedFits(s'.table, s'.flight[id]);
        }
      }
      forall g <- s'.grants ensures GrantFits(s'.table, g) {
        GrantStillFits(s.table, s'.table, g);
      }
    }
  }

  lemma OpenedFits(tb: Table, th: Thread)
    requires th.Opened?
    ensures ThreadFits(tb, th)
  {
  }

  lemma {:induction false} RowsCarryTheirSchool(s: Sys, evs: seq<Event>)
    requires WellFormed(s)
    ensures WellFormed(Run(s, evs))
  {
    if evs != [] {
      var n := |evs| - 1;
      RowsCarryTheirSchool(s, evs[..n]);
      TickFits(Run(s, evs[..n]), evs[n]);
    }
  }

  // ---- A revocation is final exactly when no refresh of a revoked token is under way ----

  predicate AllRevoked(tb: Table, dead: set<Token>) {
    forall t <- dead :: t in tb.rows && tb.rows[t].revoked
  }

  predicate NoHolder(s: Sys, dead: set<Token>) {
    forall id <- s.flight, t <- dead :: !s.flight[id].Holds(t)
  }

  // None of the grants from the n-th on came from the set.
  predicate NoGrant(grants: seq<Grant>, n: nat, dead: set<Token>) {
    n <= |grants| && forall i: nat | n <= i < |grants| :: grants[i].from !in dead
  }

  function TokensOf(tb: Table, user: Id): set<Token> {
    set t | t in tb.rows && tb.rows[t].user == user
  }

  // Everything descended from a set of tokens through a list of grants, in the order they were made.
  function Family(grants: seq<Grant>, roots: set<Token>): set<Token> {
    if grants == [] then roots
    else
      var n := |grants| - 1;
      var f := Family(grants[..n], roots);
      if grants[n].from in f then f + {grants[n].to} else f
  }

  // The revocation both reuse detection and changePassword end in reaches every row of the user.
  lemma RevocationReachesEveryRow(s: Sys, user: Id)
    requires WellFormed(s) && user in s.table.users
    ensures AllRevoked(RevokeAll(s.table, user, s.table.users[user].school), TokensOf(s.table, user))
  {
    forall t <- TokensOf(s.table, user) ensures s.table.rows[t].school == s.table.users[user].school {
      assert RowFits(s.table, s.table.rows[t]);
    }
  }

  lemma TickLeavesDead(s: Sys, ev: Event, n: nat, dead: set<Token>)
    requires AllRevoked(s.table, dead) && NoHolder(s, dead) && NoGrant(s.grants, n, dead)
    ensures AllRevoked(Tick(s, ev).table, dead) && NoHolder(Tick(s, ev), dead) && NoGrant(Tick(s, ev).grants, n, dead)
  {
    TickGrows(s, ev);
  }

  lemma {:induction false} RunLeavesDead(s: Sys, evs: seq<Event>, n: nat, dead: set<Token>)
    requires AllRevoked(s.table, dead) && NoHolder(s, dead) && NoGrant(s.grants, n, dead)
    ensures AllRevoked(Run(s, evs).table, dead) && NoHolder(Run(s, evs), dead) && NoGrant(Run(s, evs).grants, n, dead)
  {
    if evs != [] {
      var k := |evs| - 1;
      RunLeavesDead(s, evs[..k], n, dead);
      TickLeavesDead(Run(s, evs[..k]), evs[k], n, dead);
    }
  }

  lemma {:induction false} FamilyStays(grants: seq<Grant>, roots: set<Token>)
    requires NoGrant(grants, 0, roots)
    ensures Family(grants, roots) == roots
  {
    if grants != [] {
      FamilyStays(grants[..|grants| - 1], roots);
    }
  }

  // A refresh that already holds its row finishes whatever was revoked meanwhile.
  ghost function Escape(s: Sys, id: Id): seq<Event>
    requires id in s.flight && (s.flight[id].HasRow? || s.flight[id].HasUser? || s.flight[id].Consumed?)
  {
    var issued := Beyond(s.table.rows.Keys);
    match s.flight[id]
    case HasRow(_, row) => [Activate(row.user, true), Advance(id, 0, issued), Advance(id, 0, issued), Advance(id, 0, issued)]
    case HasUser(_, _, _) => [Advance(id, 0, issued), Advance(id, 0, issued)]
    case Consumed(_, _, _) => [Advance(id, 0, issued)]
  }

  lemma {:induction false} ConsumedEscapes(s: Sys, id: Id, issued: Token)
    requires id in s.flight && s.flight[id].Consumed? && issued !in s.table.rows
    ensures Run(s, [Advance(id, 0, issued)]).grants == s.grants + [Grant(s.flight[id].token, issued)]
  {
    var ev := Advance(id, 0, issued);
    assert [ev][..0] == [];
    assert Run(s, [ev]) == Tick(s, ev);
  }

  lemma {:induction false} HasUserEscapes(s: Sys, id: Id, issued: Token)
    requires id in s.flight && s.flight[id].HasUser? && s.flight[id].token in s.table.rows && issued !in s.table.rows
    ensures Run(s, [Advance(id, 0, issued), Advance(id, 0, issued)]).grants == s.grants + [Grant(s.flight[id].token, issued)]
  {
    var ev := Advance(id, 0, issued);
    RunJoins(s, [ev], [ev]);
    assert [ev][..0] == [];
    assert Run(s, [ev]) == Tick(s, ev);
    ConsumedEscapes(Tick(s, ev), id, issued);
    assert [ev] + [ev] == [ev, ev];
  }

  lemma {:induction false} HasRowEscapes(s: Sys, id: Id, issued: Token)
    requires WellFormed(s) && id in s.flight && s.flight[id].HasRow? && issued !in s.table.rows
    ensures var ev := Advance(id, 0, issued);
            Run(s, [Activate(s.flight[id].row.user, true), ev, ev, ev]).grants == s.grants + [Grant(s.flight[id].token, issued)]
  {
    var ev, on := Advance(id, 0, issued), Activate(s.flight[id].row.user, true);
    assert ThreadFits(s.table, s.flight[id]);
    RunJoins(s, [on], [ev, ev, ev]);
    RunJoins(Run(s, [on]), [ev], [ev, ev]);
    assert [on][..0] == [] && [ev][..0] == [];
    assert [on] + [ev, ev, ev] == [on, ev, ev, ev] && [ev] + [ev, ev] == [ev, ev, ev];
    var s1 := Tick(s, on);
    assert Run(s, [on]) == s1 && Run(s1, [ev]) == Tick(s1, ev);
    HasUserEscapes(Tick(s1, ev), id, issued);
  }

  lemma HolderEscapes(s: Sys, id: Id, t: Token)
    requires WellFormed(s) && id in s.flight && s.flight[id].Holds(t)
    ensures Run(s, Escape(s, id)).grants == s.grants + [Grant(t, Beyond(s.table.rows.Keys))]
  {
    var issued := Beyond(s.table.rows.Keys);
    assert issued !in s.table.rows;
    assert ThreadFits(s.table, s.flight[id]);
    match s.flight[id]
    case HasRow(_, _) => HasRowEscapes(s, id, issued);
    case HasUser(_, _, _) => HasUserEscapes(s, id, issued);
    case Consumed(_, _, _) => ConsumedEscapes(s, id, issued);
  }

  // Whatever has been granted since s, the set and its descendants were not refreshed.
  predicate StaysDead(s: Sys, evs: seq<Event>, dead: set<Token>) {
    var n, grants := |s.grants|, Run(s, evs).grants;
    NoGrant(grants, n, dead) && Family(grants[n..], dead) == dead
  }

  // After a revocation, nothing that existed then and nothing descended from it is ever refreshed,
  // over every continuation, if and only if no refresh of those tokens had passed its checks by then.
  lemma RevocationIsFinalIff(s: Sys, dead: set<Token>)
    requires WellFormed(s) && AllRevoked(s.table, dead)
    ensures (forall evs: seq<Event> :: StaysDead(s, evs, dead)) <==> NoHolder(s, dead)
  {
    var n := |s.grants|;
    if NoHolder(s, dead) {
      forall evs: seq<Event> ensures StaysDead(s, evs, dead) {
        RunLeavesDead(s, evs, n, dead);
        FamilyStays(Run(s, evs).grants[n..], dead);
      }
    } else {
      var id, t :| id in s.flight && t in dead && s.flight[id].Holds(t);
      HolderEscapes(s, id, t);
      var grants := Run(s, Escape(s, id)).grants;
      assert grants[n].from in dead;
      assert !StaysDead(s, Escape(s, id), dead);
    }
  }

  // ---- Reuse detection ----

  lemma {:induction false} RunThree(s: Sys, a: Event, b: Event, c: Event)
    ensures Run(s, [a, b, c]) == Tick(Tick(Tick(s, a), b), c)
  {
    assert [a, b, c][..2] == [a, b] && [a, b][..1] == [a] && [a][..0] == [];
    assert Run(s, [a]) == Tick(s, a);
    assert Run(s, [a, b]) == Tick(Tick(s, a), b);
  }

  // Presenting a consumed token makes every token of its user useless, unless the token has expired
  // or was itself revoked: those two checks come first and leave the table alone.
  lemma ReplayRevokesIff(s: Sys, id: Id, t: Token, elapsed: nat, issued: Token)
    requires WellFormed(s) && id !in s.flight && id !in s.answers
    requires t in s.table.rows && s.table.rows[t].used
    ensures var row := s.table.rows[t];
            var step := Advance(id, elapsed, issued);
            var s' := Run(s, [Arrive(id, Refresh(t, true)), step, Advance(id, 0, issued)]);
            id in s'.answers &&
            if s.clock + elapsed <= row.expires && !row.revoked
            then s'.answers[id] == ReuseDetected && AllRevoked(s'.table, TokensOf(s.table, row.user)) &&
                 TokensOf(s'.table, row.user) == TokensOf(s.table, row.user)
            else s'.answers[id] in {Expired, Revoked} && s'.table == s.table
  {
    var arrive, step, last := Arrive(id, Refresh(t, true)), Advance(id, elapsed, issued), Advance(id, 0, issued);
    var row := s.table.rows[t];
    var s1 := Tick(s, arrive);
    var s2 := Tick(s1, step);
    RunThree(s, arrive, step, last);
    assert RowFits(s.table, row);
    RevocationReachesEveryRow(s, row.user);
    if s.clock + elapsed <= row.expires && !row.revoked {
      assert s2.flight[id] == MustRevoke(row.user, row.school, ReuseDetected) && s2.table == s.table;
    }
  }

  // Every descendant of a token belongs to its user, so a replay of any ancestor reaches it.
  lemma {:induction false} FamilyBelongsToOneUser(s: Sys, grants: seq<Grant>, t: Token)
    requires WellFormed(s) && t in s.table.rows && (forall g <- grants :: g in s.grants)
    ensures Family(grants, {t}) <= TokensOf(s.table, s.table.rows[t].user)
  {
    if grants != [] {
      FamilyBelongsToOneUser(s, grants[..|grants| - 1], t);
      assert GrantFits(s.table, grants[|grants| - 1]);
    }
  }

  // A token that was ever granted from has been consumed: its next use is a replay.
  lemma GrantedTokensAreUsed(s: Sys, evs: seq<Event>, g: Grant)
    requires WellFormed(s) && g in Run(s, evs).grants
    ensures g.from in Run(s, evs).table.rows && Run(s, evs).table.rows[g.from].used
  {
    RowsCarryTheirSchool(s, evs);
    assert GrantFits(Run(s, evs).table, g);
  }

  // ---- How often one token can be redeemed ----

  function Refreshing(s: Sys, t: Token): set<Id> {
    set id | id in s.flight && s.flight[id].Refreshes(t)
  }

  function Holding(s: Sys, t: Token): set<Id> {
    set id | id in s.flight && s.flight[id].Holds(t)
  }

  function Redeemed(grants: seq<Grant>, t: Token): nat {
    if grants == [] then 0
    else Redeemed(grants[..|grants| - 1], t) + (if grants[|grants| - 1].from == t then 1 else 0)
  }

  // At most k refreshes of the token are in flight at any moment of the run.
  ghost predicate Within(s: Sys, evs: seq<Event>, t: Token, k: nat) {
    forall i: nat | i <= |evs| :: |Refreshing(Run(s, evs[..i]), t)| <= k
  }

  predicate Budget(s: Sys, t: Token, k: nat) {
    && |Holding(s, t)| + Redeemed(s.grants, t) <= k
    && (t in s.table.rows && !s.table.rows[t].used ==> Redeemed(s.grants, t) == 0)
    && (t !in s.table.rows ==> Redeemed(s.grants, t) == 0)
  }

  // Only a refresh that finds the row unused comes to hold it; only a holder is granted a successor.
  lemma CallHolds(tb: Table, th: Thread, now: nat, issued: Token, lifetime: nat, r: Step, t: Token)
    requires r == Call(tb, th, now, issued, lifetime)
    ensures r.Next? && r.thread.Holds(t) ==> th.Holds(t) || (t in tb.rows && !tb.rows[t].used)
    ensures th.Holds(t) && th.Consumed? ==> r.Stop?
  {
  }

  lemma HoldingAfter(s: Sys, id: Id, r: Step, t: Token)
    requires id in s.flight
    ensures Holding(After(s, id, r), t)
            == Holding(s, t) - {id} + (if r.Next? && r.thread.Holds(t) then {id} else {})
  {
  }

  lemma RedeemedAfter(s: Sys, id: Id, r: Step, t: Token)
    requires id in s.flight
    ensures var th := s.flight[id];
            Redeemed(After(s, id, r).grants, t) == Redeemed(s.grants, t)
            + (if th.Consumed? && th.token == t && r.Stop? && r.answer.Rotated? then 1 else 0)
  {
    var grants := After(s, id, r).grants;
    if grants != s.grants {
      assert grants[..|grants| - 1] == s.grants;
    }
  }

  lemma AdvanceKeepsBudget(s: Sys, ev: Event, t: Token, k: nat)
    requires WellFormed(s) && Budget(s, t, k) && |Holding(Tick(s, ev), t)| <= k
    requires ev.Advance? && ev.id in s.flight
    ensures Budget(Tick(s, ev), t, k)
  {
    hide Call, Holding, Redeemed;
    var id, th, now := ev.id, s.flight[ev.id], s.clock + ev.elapsed;
    var r := Call(s.table, th, now, ev.issued, s.lifetime);
    var s0 := s.(clock := now);
    TickGrows(s, ev);
    CallHolds(s.table, th, now, ev.issued, s.lifetime, r, t);
    HoldingAfter(s0, id, r, t);
    RedeemedAfter(s0, id, r, t);
    HoldingMember(s, id, t);
    assert ThreadFits(s.table, th);
  }

  lemma HoldingMember(s: Sys, id: Id, t: Token)
    requires id in s.flight
    ensures id in Holding(s, t) <==> s.flight[id].Holds(t)
    ensures forall s': Sys :: s'.flight == s.flight ==> Holding(s', t) == Holding(s, t)
    ensures |Holding(s, t) - {id}| == |Holding(s, t)| - (if s.flight[id].Holds(t) then 1 else 0)
  {
    if !s.flight[id].Holds(t) {
      assert Holding(s, t) - {id} == Holding(s, t);
    }
  }

  lemma TickKeepsBudget(s: Sys, ev: Event, t: Token, k: nat)
    requires WellFormed(s) && Budget(s, t, k) && |Refreshing(Tick(s, ev), t)| <= k
    ensures Budget(Tick(s, ev), t, k)
  {
    var s' := Tick(s, ev);
    SubsetSize(Holding(s', t), Refreshing(s', t));
    if ev.Advance? && ev.id in s.flight {
      AdvanceKeepsBudget(s, ev, t, k);
    } else {
      assert Holding(s', t) == Holding(s, t);
    }
  }

  // With at most k refreshes of a token in flight at a time, whatever else runs, it is redeemed at most k
  // times: exactly one winner when they do not overlap.
  lemma {:induction false} OverlapBoundsRedemptions(s: Sys, evs: seq<Event>, t: Token, k: nat)
    requires WellFormed(s) && s.grants == [] && Refreshing(s, t) == {} && Within(s, evs, t, k)
    ensures Redeemed(Run(s, evs).grants, t) <= k
    ensures Budget(Run(s, evs), t, k)
  {
    if evs == [] {
      SubsetSize(Holding(s, t), Refreshing(s, t));
    } else {
      var n := |evs| - 1;
      assert forall i: nat | i <= n :: evs[..n][..i] == evs[..i];
      OverlapBoundsRedemptions(s, evs[..n], t, k);
      RowsCarryTheirSchool(s, evs[..n]);
      assert evs[..n + 1] == evs;
      TickKeepsBudget(Run(s, evs[..n]), evs[n], t, k);
    }
  }

  // ---- How many live tokens a user has ----

  function Live(tb: Table, user: Id): set<Token> {
    set t | t in tb.rows && tb.rows[t].user == user && tb.rows[t].Live()
  }

  // Refreshes that have consumed the user's token and not yet stored its successor.
  function Owed(s: Sys, user: Id): set<Id> {
    set id | id in s.flight && s.flight[id].Consumed? && s.flight[id].user == user
  }

  // The event stores a row for the user from outside, or consumes a token of the user that is no longer
  // live: another refresh or a revocation came between the check and the mark.
  predicate Adds(s: Sys, ev: Event, user: Id) {
    match ev
    case Issue(t, u, _) => u == user && t !in s.table.rows && u in s.table.users
    case Advance(id, _, _) =>
      id in s.flight && s.flight[id].HasUser? && s.flight[id].user == user &&
      s.flight[id].token in s.table.rows && !s.table.rows[s.flight[id].token].Live()
    case _ => false
  }

  function Additions(s: Sys, evs: seq<Event>, user: Id): nat {
    if evs == [] then 0
    else
      var n := |evs| - 1;
      Additions(s, evs[..n], user) + (if Adds(Run(s, evs[..n]), evs[n], user) then 1 else 0)
  }

  // What a user has and is about to get.
  function Worth(s: Sys, user: Id): nat {
    |Live(s.table, user)| + |Owed(s, user)|
  }

  // What one call does to a user's live tokens.
  lemma CallLive(tb: Table, th: Thread, now: nat, issued: Token, lifetime: nat, r: Step, user: Id)
    requires r == Call(tb, th, now, issued, lifetime) && ThreadFits(tb, th)
    ensures th.Consumed? && th.user == user ==>
              Live(r.table, user) == if issued in tb.rows then Live(tb, user) else Live(tb, user) + {issued}
    ensures th.HasUser? && th.user == user ==> r.Next? && Live(r.table, user) == Live(tb, user) - {th.token}
    ensures !(th.Consumed? && th.user == user) ==> Live(r.table, user) <= Live(tb, user)
  {
  }

  lemma OwedAfter(s: Sys, id: Id, now: nat, issued: Token, r: Step, user: Id)
    requires id in s.flight && r == Call(s.table, s.flight[id], now, issued, s.lifetime)
    ensures Owed(After(s, id, r), user)
            == Owed(s, user) - {id} + (if r.Next? && s.flight[id].HasUser? && s.flight[id].user == user then {id} else {})
  {
  }

  lemma LiveMember(tb: Table, th: Thread, user: Id)
    requires ThreadFits(tb, th)
    ensures th.HasUser? && th.user == user ==> (th.token in Live(tb, user) <==> tb.rows[th.token].Live())
    ensures forall t: Token :: t !in tb.rows ==> t !in Live(tb, user)
  {
  }

  lemma ThreadFitsToken(tb: Table, th: Thread)
    requires ThreadFits(tb, th) && th.HasUser?
    ensures th.token in tb.rows
  {
  }

  lemma OwedMember(s: Sys, s0: Sys, id: Id, user: Id)
    requires id in s.flight && s0.flight == s.flight
    ensures Owed(s0, user) == Owed(s, user)
    ensures id in Owed(s, user) <==> s.flight[id].Consumed? && s.flight[id].user == user
  {
  }

  lemma AdvanceIsAfter(s: Sys, ev: Event)
    requires ev.Advance? && ev.id in s.flight
    ensures var now := s.clock + ev.elapsed;
            var r := Call(s.table, s.flight[ev.id], now, ev.issued, s.lifetime);
            Tick(s, ev) == After(s.(clock := now), ev.id, r) && Tick(s, ev).table == r.table
  {
    hide Call;
  }

  lemma AdvanceOnWorth(s: Sys, ev: Event, user: Id)
    requires WellFormed(s) && ev.Advance? && ev.id in s.flight
    ensures Worth(Tick(s, ev), user) <= Worth(s, user) + 1
    ensures Worth(Tick(s, ev), user) > Worth(s, user) <==> Adds(s, ev, user)
  {
    hide Call, Live, Tick, After, Owed, ThreadFits, RowFits, GrantFits;
    var id, th, now := ev.id, s.flight[ev.id], s.clock + ev.elapsed;
    var r := Call(s.table, th, now, ev.issued, s.lifetime);
    var l, o, s0 := Live(s.table, user), Owed(s, user), s.(clock := now);
    assert ThreadFits(s.table, th);
    AdvanceIsAfter(s, ev);
    OwedMember(s, s0, id, user);
    LiveMember(s.table, th, user);
    CallLive(s.table, th, now, ev.issued, s.lifetime, r, user);
    OwedAfter(s0, id, now, ev.issued, r, user);
    if th.Consumed? && th.user == user {
    } else if th.HasUser? && th.user == user {
      ThreadFitsToken(s.table, th);
      assert th.token !in l ==> l - {th.token} == l;
    } else {
      SubsetSize(Live(r.table, user), l);
      assert o - {id} == o;
    }
  }

  lemma OthersOnLive(s: Sys, ev: Event, user: Id)
    requires !(ev.Advance? && ev.id in s.flight)
    ensures Owed(Tick(s, ev), user) == Owed(s, user)
    ensures Live(Tick(s, ev).table, user)
            == if ev.Issue? && Adds(s, ev, user) then Live(s.table, user) + {ev.token} else Live(s.table, user)
    ensures ev.Issue? && Adds(s, ev, user) ==> ev.token !in Live(s.table, user)
  {
  }

  // One event raises what a user has or is about to get, and then by one, exactly when it stores a row for
  // the user from outside or consumes one of the user's tokens that is no longer live.
  lemma RisesIff(s: Sys, ev: Event, user: Id)
    requires WellFormed(s)
    ensures Worth(Tick(s, ev), user) <= Worth(s, user) + 1
    ensures Worth(Tick(s, ev), user) > Worth(s, user) <==> Adds(s, ev, user)
  {
    hide Tick, Live, Owed;
    if ev.Advance? && ev.id in s.flight {
      AdvanceOnWorth(s, ev, user);
    } else {
      OthersOnLive(s, ev, user);
    }
  }

  // Over any run a user's live tokens rise by no more than the rows stored for the user from outside and
  // the refreshes that consumed a token no longer live; without those the number never rises.
  lemma {:induction false} LiveTokensAreBounded(s: Sys, evs: seq<Event>, user: Id)
    requires WellFormed(s)
    ensures Worth(Run(s, evs), user) <= Worth(s, user) + Additions(s, evs, user)
  {
    hide Worth, Adds;
    if evs != [] {
      var n := |evs| - 1;
      LiveTokensAreBounded(s, evs[..n], user);
      RowsCarryTheirSchool(s, evs[..n]);
      RisesIff(Run(s, evs[..n]), evs[n], user);
    }
  }

  // ---- The bound is reached: overlapping refreshes of one token are all answered with a new one ----

  predicate Redeemable(tb: Table, t: Token, now: nat) {
    && t in tb.rows && tb.rows[t].Live() && now <= tb.rows[t].expires
    && tb.rows[t].user in tb.users && tb.users[tb.rows[t].user].active
  }

  // Exactly the requests 0 to n-1 are in flight, each holding the token's row.
  ghost predicate AllHold(s: Sys, t: Token, row: Row, n: nat) {
    forall i: Id :: (i in s.flight <==> i < n) && (i in s.flight ==> s.flight[i] == HasRow(t, row))
  }

  lemma OneReads(s: Sys, t: Token, id: Id)
    requires Redeemable(s.table, t, s.clock) && id !in s.flight && id !in s.answers
    ensures Run(s, [Arrive(id, Refresh(t, true)), Advance(id, 0, 0)])
            == s.(flight := s.flight[id := HasRow(t, s.table.rows[t])])
  {
    RunTwo(s, Arrive(id, Refresh(t, true)), Advance(id, 0, 0));
  }

  lemma {:induction false} AllRead(s: Sys, t: Token, n: nat) returns (evs: seq<Event>)
    requires Redeemable(s.table, t, s.clock) && s.flight == map[] && s.answers == map[]
    ensures AllHold(Run(s, evs), t, s.table.rows[t], n)
    ensures Run(s, evs).(flight := map[]) == s
  {
    if n == 0 {
      evs := [];
    } else {
      hide Tick;
      var before := AllRead(s, t, n - 1);
      var a, b := Arrive(n - 1, Refresh(t, true)), Advance(n - 1, 0, 0);
      evs := before + [a, b];
      RunJoins(s, before, [a, b]);
      assert Run(s, before).table == s.table && Run(s, before).clock == s.clock && Run(s, before).answers == map[];
      OneReads(Run(s, before), t, n - 1);
    }
  }

  lemma {:induction false} RunTwo(s: Sys, a: Event, b: Event)
    ensures Run(s, [a, b]) == Tick(Tick(s, a), b)
  {
    assert [a, b][..1] == [a] && [a][..0] == [];
    assert Run(s, [a]) == Tick(s, a);
  }

  lemma FinishOne(s: Sys, id: Id, t: Token, row: Row, issued: Token)
    requires id in s.flight && s.flight[id] == HasRow(t, row) && t in s.table.rows && issued !in s.table.rows
    requires row.user in s.table.users && s.table.users[row.user].active
    ensures var step := Advance(id, 0, issued);
            var s' := Run(s, [step, step, step]);
            s'.flight == s.flight - {id} && s'.table.users == s.table.users && t in s'.table.rows &&
            s'.grants == s.grants + [Grant(t, issued)]
  {
    var step := Advance(id, 0, issued);
    RunThree(s, step, step, step);
  }

  lemma {:induction false} AllFinish(s: Sys, t: Token, row: Row, n: nat) returns (evs: seq<Event>)
    requires AllHold(s, t, row, n)
    requires t in s.table.rows && row.user in s.table.users && s.table.users[row.user].active
    ensures Redeemed(Run(s, evs).grants, t) == Redeemed(s.grants, t) + n
    decreases n
  {
    if n == 0 {
      evs := [];
    } else {
      var issued := Beyond(s.table.rows.Keys);
      assert issued !in s.table.rows;
      var step := Advance(n - 1, 0, issued);
      FinishOne(s, n - 1, t, row, issued);
      var s' := Run(s, [step, step, step]);
      assert s'.grants[..|s'.grants| - 1] == s.grants;
      var rest := AllFinish(s', t, row, n - 1);
      evs := [step, step, step] + rest;
      RunJoins(s, [step, step, step], rest);
    }
  }

  // For every n, n refreshes of one token that all read its row first are all redeemed.
  lemma OverlapIsReached(s: Sys, t: Token, n: nat) returns (evs: seq<Event>)
    requires Redeemable(s.table, t, s.clock) && s.flight == map[] && s.answers == map[] && s.grants == []
    ensures Redeemed(Run(s, evs).grants, t) == n
  {
    var openings := AllRead(s, t, n);
    var finishes := AllFinish(Run(s, openings), t, s.table.rows[t], n);
    evs := openings + finishes;
    RunJoins(s, openings, finishes);
  }

  // ---- Handlers that run alone ----

  lemma {:induction false} FinishIsARun(s: Sys, id: Id, issued: Token) returns (evs: seq<Event>)
    requires id in s.flight
    ensures var (tb, answer) := Finish(s.table, s.flight[id], s.clock, issued, s.lifetime);
            Run(s, evs).table == tb && Run(s, evs).flight == s.flight - {id} && Run(s, evs).answers == s.answers[id := answer]
    decreases match s.flight[id] { case Opened(_) => 4 case HasRow(_, _) => 3 case HasUser(_, _, _) => 2
                                   case MustRehash(_, _) => 2 case Consumed(_, _, _) => 1 case MustRevoke(_, _, _) => 1 }
  {
    var step := Advance(id, 0, issued);
    var s' := Tick(s, step);
    assert [step][..0] == [];
    assert Run(s, [step]) == s';
    if id in s'.flight {
      var rest := FinishIsARun(s', id, issued);
      evs := [step] + rest;
      RunJoins(s, [step], rest);
      assert s'.flight - {id} == s.flight - {id};
    } else {
      evs := [step];
    }
  }

  // Running one handler at a time is one of the interleavings, so all of the above holds of it.
  lemma ServeIsARun(s: Sys, id: Id, req: Request, issued: Token) returns (evs: seq<Event>)
    requires id !in s.flight && id !in s.answers
    ensures var (tb, answer) := Serve(s.table, req, s.clock, issued, s.lifetime);
            Run(s, evs).table == tb && Run(s, evs).flight == s.flight && Run(s, evs).answers == s.answers[id := answer]
  {
    hide Finish;
    var arrive := Arrive(id, req);
    var s' := Tick(s, arrive);
    assert [arrive][..0] == [];
    assert Run(s, [arrive]) == s';
    var rest := FinishIsARun(s', id, issued);
    evs := [arrive] + rest;
    RunJoins(s, [arrive], rest);
    assert s'.flight - {id} == s.flight;
  }

  lemma {:induction false} FinishNeverAddsLive(tb: Table, th: Thread, now: nat, issued: Token, lifetime: nat, user: Id)
    requires (forall t <- tb.rows :: RowFits(tb, tb.rows[t])) && ThreadFits(tb, th)
    requires (th.HasRow? || th.HasUser?) ==> tb.rows[th.token].Live()
    ensures |Live(Finish(tb, th, now, issued, lifetime).0, user)|
            <= |Live(tb, user)| + (if th.Consumed? && th.user == user then 1 else 0)
    decreases match th { case Opened(_) => 4 case HasRow(_, _) => 3 case HasUser(_, _, _) => 2
                         case MustRehash(_, _) => 2 case Consumed(_, _, _) => 1 case MustRevoke(_, _, _) => 1 }
  {
    var r, l := Call(tb, th, now, issued, lifetime), Live(tb, user);
    CallLive(tb, th, now, issued, lifetime, r, user);
    SubsetSize(Live(r.table, user),
               if th.Consumed? && th.user == user then l + {issued}
               else if th.HasUser? && th.user == user then l - {th.token}
               else l);
    if r.Next? {
      FinishNeverAddsLive(r.table, r.thread, now, issued, lifetime, user);
    }
  }

  // Run alone, no handler raises a user's number of live tokens: a refresh consumes one before it stores one.
  lemma ServeNeverAddsLive(tb: Table, req: Request, now: nat, issued: Token, lifetime: nat, user: Id)
    requires forall t <- tb.rows :: RowFits(tb, tb.rows[t])
    ensures |Live(Serve(tb, req, now, issued, lifetime).0, user)| <= |Live(tb, user)|
  {
    FinishNeverAddsLive(tb, Opened(req), now, issued, lifetime, user);
  }

  lemma CheckThenChange(s: Sys, t: Token, req: Request, issued: Token)
    requires Redeemable(s.table, t, s.clock) && s.flight == map[] && s.answers == map[]
    ensures Run(s, [Arrive(0, Refresh(t, true)), Advance(0, 0, issued), Arrive(1, req)])
            == s.(flight := map[0 := HasRow(t, s.table.rows[t]), 1 := Opened(req)])
  {
    RunThree(s, Arrive(0, Refresh(t, true)), Advance(0, 0, issued), Arrive(1, req));
  }

  lemma ChangeFinishes(s: Sys, id: Id, user: Id, issued: Token)
    requires user in s.table.users && id in s.flight
    requires s.flight[id] == Opened(ChangePassword(user, s.table.users[user].school, true))
    ensures var finish := Advance(id, 0, issued);
            var s' := Run(s, [finish, finish, finish]);
            s'.table == RevokeAll(s.table, user, s.table.users[user].school) && s'.flight == s.flight - {id} &&
            s'.grants == s.grants
  {
    var finish := Advance(id, 0, issued);
    RunThree(s, finish, finish, finish);
  }

  lemma StoresOne(s: Sys, id: Id, t: Token, row: Row, issued: Token)
    requires id in s.flight && s.flight[id] == HasRow(t, row) && t in s.table.rows && issued !in s.table.rows
    requires row.user in s.table.users && s.table.users[row.user].active
    ensures var step := Advance(id, 0, issued);
            var tb := Run(s, [step, step, step]).table;
            Live(tb, row.user) == Live(s.table, row.user) - {t} + {issued}
  {
    var step := Advance(id, 0, issued);
    RunThree(s, step, step, step);
  }

  // Overlap does raise it: a password change between the check and the mark leaves the user with no live
  // token, and the refresh then stores one.
  lemma RevocationInBetweenAdds(s: Sys, t: Token, issued: Token)
    requires Redeemable(s.table, t, s.clock) && s.flight == map[] && s.answers == map[]
    requires issued !in s.table.rows && WellFormed(s)
    ensures var user := s.table.rows[t].user;
            var change := ChangePassword(user, s.table.rows[t].school, true);
            var check, finish := Advance(0, 0, issued), Advance(1, 0, issued);
            var revoked := Run(Run(s, [Arrive(0, Refresh(t, true)), check, Arrive(1, change)]), [finish, finish, finish]);
            Live(revoked.table, user) == {} && Live(Run(revoked, [check, check, check]).table, user) == {issued}
  {
    hide Run;
    var row := s.table.rows[t];
    var change := ChangePassword(row.user, row.school, true);
    var check, finish := Advance(0, 0, issued), Advance(1, 0, issued);
    assert RowFits(s.table, row);
    RevocationReachesEveryRow(s, row.user);
    CheckThenChange(s, t, change, issued);
    var waiting := s.(flight := map[0 := HasRow(t, row), 1 := Opened(change)]);
    ChangeFinishes(waiting, 1, row.user, issued);
    var revoked := Run(waiting, [finish, finish, finish]);
    assert forall u <- Live(revoked.table, row.user) :: u in TokensOf(s.table, row.user);
    StoresOne(revoked, 0, t, row, issued);
  }
}
