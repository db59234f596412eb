// The authentication service's token operations, updating the token table in place. Each is proved
// to do exactly what the handler of the same name does in Tokens when nothing runs in between.
module AuthServices {
  import opened Options
  import opened Decimals
  import opened Tokens

  class AuthService {
    var rows: map<Token, Row>
    var users: map<Id, Account>
    const lifetime: nat

    constructor (seeded: Table, lifetime: nat)
      ensures View() == seeded && this.lifetime == lifetime
    {
      rows, users, this.lifetime := seeded.rows, seeded.users, lifetime;
    }

    function View(): Table
      reads this
    {
      Table(rows, users)
    }

    method StoreRefreshToken(user: Id, school: Id, token: Token, now: nat) returns (ok: bool)
      modifies this`rows
      ensures ok == (token !in old(rows))
      ensures rows == if ok then old(rows)[token := Row(user, school, now + lifetime, false, false)] else old(rows)
    {
      ok := token !in rows;
      if ok {
        rows := rows[token := Row(user, school, now + lifetime, false, false)];
      }
    }

    method RevokeAllUserTokens(user: Id, school: Id)
      modifies this`rows
      ensures View() == RevokeAll(old(View()), user, school)
    {
      rows := map t | t in rows ::
        if rows[t].user == user && rows[t].school == school then rows[t].(revoked := true) else rows[t];
    }

    method Refresh(token: Token, genuine: bool, now: nat, issued: Token) returns (answer: Answer)
      modifies this`rows
      ensures (View(), answer) == Serve(old(View()), Request.Refresh(token, genuine), now, issued, lifetime)
    {
      if !genuine {
        return Invalid;
      }
      if token !in rows {
        return Unknown;
      }
      var stored := rows[token];
      if stored.expires < now {
        return Expired;
      }
      if stored.revoked {
        return Revoked;
      }
      if stored.used {
        assert Serve(View(), Request.Refresh(token, genuine), now, issued, lifetime)
            == Finish(View(), MustRevoke(stored.user, stored.school, ReuseDetected), now, issued, lifetime);
        RevokeAllUserTokens(stored.user, stored.school);
        return ReuseDetected;
      }
      answer := Rotate(token, stored, now, issued);
    }

    // The part of refresh after the checks on the stored row.
    method Rotate(token: Token, stored: Row, now: nat, issued: Token) returns (answer: Answer)
      requires token in rows && rows[token] == stored
      modifies this`rows
      ensures (View(), answer) == Finish(old(View()), HasRow(token, stored), now, issued, lifetime)
    {
      if stored.user !in users || !users[stored.user].active {
        return Deactivated;
      }
      var account := users[stored.user];
      ghost var consumed := Table(rows[token := stored.(used := true)], users);
      assert Finish(View(), HasRow(token, stored), now, issued, lifetime)
          == Finish(View(), HasUser(token, stored.user, account.school), now, issued, lifetime)
          == Finish(consumed, Consumed(token, stored.user, account.school), now, issued, lifetime);
      rows := rows[token := stored.(used := true)];
      var ok := StoreRefreshToken(stored.user, account.school, issued, now);
      answer := if ok then Rotated(issued) else DatabaseError;
    }

    method Logout(given: Option<Token>, user: Id, school: Id, now: nat, issued: Token)
      modifies this`rows
      ensures View() == Serve(old(View()), Request.Logout(given, user, school), now, issued, lifetime).0
    {
      if given.Some? && given.value in rows && rows[given.value].user == user && rows[given.value].school == school {
        rows := rows[given.value := rows[given.value].(revoked := true, used := true)];
      }
    }

    method ChangePassword(user: Id, school: Id, correct: bool, now: nat, issued: Token) returns (answer: Answer)
      modifies this`rows
      ensures (View(), answer) == Serve(old(View()), Request.ChangePassword(user, school, correct), now, issued, lifetime)
    {
      if user !in users || users[user].school != school {
        return NoUser;
      }
      if !correct {
        return WrongPassword;
      }
      assert Finish(View(), MustRehash(user, school), now, issued, lifetime)
          == Finish(View(), MustRevoke(user, school, Done), now, issued, lifetime);
      RevokeAllUserTokens(user, school);
      answer := Done;
    }
  }

  // ---- parseExpiration: a numeral and one of s, m, h, d ----

  function Multiplier(unit: char): Option<nat> {
    if unit == 's' then Some(1)
    else if unit == 'm' then Some(60)
    else if unit == 'h' then Some(3600)
    else if unit == 'd' then Some(86400)
    else None
  }

  // None is the thrown error.
  function ParseExpiration(exp: string): Option<nat> {
    if exp == [] then None
    else
      var digits, factor := exp[..|exp| - 1], Multiplier(exp[|exp| - 1]);
      if factor.Some? && Numeral(digits) then Some(Value(digits) * factor.value) else None
  }

  // Every written duration reads back as its seconds, a text is read exactly when it is a numeral and a unit,
  // and the units are seconds, minutes, hours and days.
  lemma ExpirationReadsBack(n: nat, unit: char, exp: string)
    ensures ParseExpiration(Decimal(n) + [unit])
            == if Multiplier(unit).Some? then Some(n * Multiplier(unit).value) else None
    ensures ParseExpiration(exp).Some? <==>
            |exp| >= 2 && Multiplier(exp[|exp| - 1]).Some? && forall i | 0 <= i < |exp| - 1 :: '0' <= exp[i] <= '9'
    ensures var text := Decimal(n);
            ParseExpiration(text + "s") == Some(n) && ParseExpiration(text + "m") == Some(60 * n) &&
            ParseExpiration(text + "h") == Some(3600 * n) && ParseExpiration(text + "d") == Some(24 * 3600 * n) &&
            (unit !in "smhd" ==> ParseExpiration(text + [unit]) == None)
  {
    hide Multiplier, ParseExpiration;
    TextIsReadIff(exp);
    UnitReads(n, unit);
    UnitReads(n, 's');
    UnitReads(n, 'm');
    UnitReads(n, 'h');
    UnitReads(n, 'd');
    UnitsAreFour(unit);
  }

  lemma TextIsReadIff(exp: string)
    ensures ParseExpiration(exp).Some? <==>
            |exp| >= 2 && Multiplier(exp[|exp| - 1]).Some? && forall i | 0 <= i < |exp| - 1 :: '0' <= exp[i] <= '9'
  {
  }

  lemma UnitReads(n: nat, unit: char)
    ensures ParseExpiration(Decimal(n) + [unit])
            == if Multiplier(unit).Some? then Some(n * Multiplier(unit).value) else None
  {
    ValueReadsDecimal(n);
    assert (Decimal(n) + [unit])[..|Decimal(n)|] == Decimal(n);
  }

  lemma UnitsAreFour(unit: char)
    ensures Multiplier('s') == Some(1) && Multiplier('m') == Some(60) && Multiplier('h') == Some(3600)
    ensures Multiplier('d') == Some(24 * 3600) && (unit !in "smhd" ==> Multiplier(unit) == None)
  {
  }
}
