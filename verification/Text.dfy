// The string operations the services share.
module Text {

  // toUpperCase and toLowerCase on ASCII.
  function UpperChar(c: char): char {
    if 'a' <= c <= 'z' then c - 'a' + 'A' else c
  }

  function LowerChar(c: char): char {
    if 'A' <= c <= 'Z' then c - 'A' + 'a' else c
  }

  function Upper(s: string): string {
    seq(|s|, i requires 0 <= i < |s| => UpperChar(s[i]))
  }

  function Lower(s: string): string {
    seq(|s|, i requires 0 <= i < |s| => LowerChar(s[i]))
  }

  // What String.prototype.trim and \s take for white space.
  predicate IsSpace(c: char) {
    var n := c as int;
    9 <= n <= 13 || n == 0x20 || n == 0xA0 || n == 0x1680 || 0x2000 <= n <= 0x200A || n == 0x2028 || n == 0x2029 ||
    n == 0x202F || n == 0x205F || n == 0x3000 || n == 0xFEFF
  }

  function TrimLeft(s: string): string {
    if s != [] && IsSpace(s[0]) then TrimLeft(s[1..]) else s
  }

  function TrimRight(s: string): string {
    if s != [] && IsSpace(s[|s| - 1]) then TrimRight(s[..|s| - 1]) else s
  }

  function Trim(s: string): string {
    TrimRight(TrimLeft(s))
  }

  // No white space at either end.
  predicate Trimmed(s: string) {
    s != [] ==> !IsSpace(s[0]) && !IsSpace(s[|s| - 1])
  }

  // No small letter is left in upper case and no capital in lower case, nothing but letters changes, and the
  // two cases of a text determine each other.
  lemma CasesMeet(s: string)
    ensures |Upper(s)| == |s| == |Lower(s)|
    ensures forall i | 0 <= i < |s| :: !('a' <= Upper(s)[i] <= 'z') && !('A' <= Lower(s)[i] <= 'Z')
    ensures forall i | 0 <= i < |s| && !('a' <= s[i] <= 'z' || 'A' <= s[i] <= 'Z') :: Upper(s)[i] == s[i] == Lower(s)[i]
    ensures Lower(Upper(s)) == Lower(s) && Upper(Lower(s)) == Upper(s)
    ensures Upper("abcdefghijklmnopqrstuvwxyz") == "ABCDEFGHIJKLMNOPQRSTUVWXYZ"
  {
  }

  // Trimming cuts white space off both ends and nothing else.
  lemma {:induction false} TrimCutsSpaces(s: string) returns (before: string, after: string)
    ensures s == before + Trim(s) + after && Trimmed(Trim(s))
    ensures forall c <- before + after :: IsSpace(c)
    ensures (forall c <- " \t\n\r" :: IsSpace(c)) && forall c | '!' <= c <= '~' :: !IsSpace(c)
  {
    TrimTrims(s);
    before := LeftSpaces(s);
    after := RightSpaces(TrimLeft(s));
  }

  lemma {:induction false} LeftSpaces(s: string) returns (before: string)
    ensures s == before + TrimLeft(s) && forall c <- before :: IsSpace(c)
  {
    if s != [] && IsSpace(s[0]) {
      var rest := LeftSpaces(s[1..]);
      before := [s[0]] + rest;
    } else {
      before := [];
    }
  }

  lemma {:induction false} RightSpaces(s: string) returns (after: string)
    ensures s == TrimRight(s) + after && forall c <- after :: IsSpace(c)
  {
    if s != [] && IsSpace(s[|s| - 1]) {
      var rest := RightSpaces(s[..|s| - 1]);
      after := rest + [s[|s| - 1]];
    } else {
      after := [];
    }
  }

  lemma {:induction false} TrimLeftStarts(s: string)
    ensures TrimLeft(s) != [] ==> !IsSpace(TrimLeft(s)[0])
  {
    if s != [] && IsSpace(s[0]) {
      TrimLeftStarts(s[1..]);
    }
  }

  lemma {:induction false} TrimRightEnds(s: string)
    ensures var t := TrimRight(s); t <= s && (t != [] ==> !IsSpace(t[|t| - 1]))
  {
    if s != [] && IsSpace(s[|s| - 1]) {
      TrimRightEnds(s[..|s| - 1]);
    }
  }

  lemma TrimTrims(s: string)
    ensures Trimmed(Trim(s))
    ensures Trimmed(s) ==> Trim(s) == s
  {
    TrimLeftStarts(s);
    TrimRightEnds(TrimLeft(s));
  }
}
