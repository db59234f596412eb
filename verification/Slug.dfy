// slugify as its chain of replacements. Everything up to toLowerCase (NFD, dropping diacritics, lower case)
// is one parameter, of which only this is assumed: it leaves no ASCII capital, and leaves slugs alone.
module Slug {
  import opened Text

  predicate IsWord(c: char) {
    'a' <= c <= 'z' || 'A' <= c <= 'Z' || '0' <= c <= '9' || c == '_'
  }

  predicate InSlug(c: char) {
    'a' <= c <= 'z' || '0' <= c <= '9' || c == '_' || c == '-'
  }

  predicate SlugChars(s: string) {
    forall c <- s :: InSlug(c)
  }

  // Nothing, or groups of lower-case letters, digits and underscores with single dashes between them.
  predicate IsSlug(s: string) {
    SlugChars(s) && NoDoubleDash(s) && (s != [] ==> s[0] != '-' && s[|s| - 1] != '-')
  }

  predicate NoDoubleDash(s: string) {
    forall i | 0 < i < |s| :: !(s[i - 1] == '-' && s[i] == '-')
  }

  ghost predicate Folds(fold: string -> string) {
    && (forall s: string, i | 0 <= i < |fold(s)| :: !('A' <= fold(s)[i] <= 'Z'))
    && (forall s: string :: SlugChars(s) ==> fold(s) == s)
  }

  // /\s+/g to a dash
  function DashSpaces(s: string): string
    decreases |s|
  {
    if s == [] then []
    else if IsSpace(s[0]) then "-" + DashSpaces(AfterSpaces(s))
    else [s[0]] + DashSpaces(s[1..])
  }

  function AfterSpaces(s: string): (t: string)
    ensures |t| <= |s| && (s != [] && IsSpace(s[0]) ==> |t| < |s|)
  {
    if s != [] && IsSpace(s[0]) then AfterSpaces(s[1..]) else s
  }

  // /[^\w\-]+/g to nothing
  function KeepWords(s: string): string {
    if s == [] then []
    else if IsWord(s[0]) || s[0] == '-' then [s[0]] + KeepWords(s[1..])
    else KeepWords(s[1..])
  }

  // /\-\-+/g to a dash
  function CollapseDashes(s: string): string
    decreases |s|
  {
    if s == [] then []
    else if s[0] == '-' then "-" + CollapseDashes(AfterDashes(s))
    else [s[0]] + CollapseDashes(s[1..])
  }

  // /^-+/ to nothing
  function AfterDashes(s: string): (t: string)
    ensures |t| <= |s| && (s != [] && s[0] == '-' ==> |t| < |s|)
  {
    if s != [] && s[0] == '-' then AfterDashes(s[1..]) else s
  }

  // /-+$/ to nothing
  function BeforeDashes(s: string): string {
    if s != [] && s[|s| - 1] == '-' then BeforeDashes(s[..|s| - 1]) else s
  }

  function Slugify(fold: string -> string, text: string): string {
    BeforeDashes(AfterDashes(CollapseDashes(KeepWords(DashSpaces(Trim(fold(text)))))))
  }

  // ---- What each replacement keeps ----

  predicate NoCapitals(s: string) {
    forall i | 0 <= i < |s| :: !('A' <= s[i] <= 'Z')
  }

  lemma {:induction false} AfterSpacesIsSuffix(s: string)
    ensures NoCapitals(s) ==> NoCapitals(AfterSpaces(s))
  {
    if s != [] && IsSpace(s[0]) {
      AfterSpacesIsSuffix(s[1..]);
    }
  }

  lemma {:induction false} TrimKeepsCase(s: string)
    ensures NoCapitals(s) ==> NoCapitals(TrimLeft(s)) && NoCapitals(TrimRight(s))
    decreases |s|
  {
    if s != [] {
      if IsSpace(s[0]) {
        TrimKeepsCase(s[1..]);
      }
      if IsSpace(s[|s| - 1]) {
        TrimKeepsCase(s[..|s| - 1]);
      }
    }
  }

  lemma {:induction false} DashingKeepsCase(s: string)
    requires NoCapitals(s)
    ensures NoCapitals(DashSpaces(s))
    decreases |s|
  {
    if s != [] {
      if IsSpace(s[0]) {
        AfterSpacesIsSuffix(s);
        DashingKeepsCase(AfterSpaces(s));
      } else {
        DashingKeepsCase(s[1..]);
      }
    }
  }

  lemma {:induction false} KeptCharsAreSlugChars(s: string)
    requires NoCapitals(s)
    ensures SlugChars(KeepWords(s))
  {
    if s != [] {
      assert !('A' <= s[0] <= 'Z');
      KeptCharsAreSlugChars(s[1..]);
    }
  }

  lemma {:induction false} AfterDashesStarts(s: string)
    ensures AfterDashes(s) != [] ==> AfterDashes(s)[0] != '-'
    ensures SlugChars(s) ==> SlugChars(AfterDashes(s))
    ensures NoDoubleDash(s) ==> NoDoubleDash(AfterDashes(s))
  {
    if s != [] && s[0] == '-' {
      AfterDashesStarts(s[1..]);
    }
  }

  lemma {:induction false} CollapseLeavesSingles(s: string)
    ensures NoDoubleDash(CollapseDashes(s))
    ensures SlugChars(s) ==> SlugChars(CollapseDashes(s))
    ensures s != [] && s[0] != '-' ==> CollapseDashes(s) != [] && CollapseDashes(s)[0] != '-'
    decreases |s|
  {
    if s != [] {
      if s[0] == '-' {
        AfterDashesStarts(s);
        CollapseLeavesSingles(AfterDashes(s));
      } else {
        CollapseLeavesSingles(s[1..]);
      }
    }
  }

  lemma {:induction false} BeforeDashesEnds(s: string)
    ensures var t := BeforeDashes(s); t <= s && (t != [] ==> t[|t| - 1] != '-')
  {
    if s != [] && s[|s| - 1] == '-' {
      BeforeDashesEnds(s[..|s| - 1]);
    }
  }

  // Whatever the text, the result is a slug.
  lemma SlugifyMakesSlugs(fold: string -> string, text: string)
    requires Folds(fold)
    ensures IsSlug(Slugify(fold, text))
  {
    hide DashSpaces, KeepWords, CollapseDashes, AfterDashes, BeforeDashes, TrimLeft, TrimRight;
    var trimmed := Trim(fold(text));
    TrimKeepsCase(fold(text));
    TrimKeepsCase(TrimLeft(fold(text)));
    var dashed := DashSpaces(trimmed);
    DashingKeepsCase(trimmed);
    var kept := KeepWords(dashed);
    KeptCharsAreSlugChars(dashed);
    CollapseLeavesSingles(kept);
    var collapsed := CollapseDashes(kept);
    AfterDashesStarts(collapsed);
    BeforeDashesEnds(AfterDashes(collapsed));
  }

  // ---- Slugs are left alone ----

  lemma {:induction false} SlugCharsStay(s: string)
    requires SlugChars(s)
    ensures DashSpaces(s) == s && KeepWords(s) == s
  {
    if s != [] {
      assert InSlug(s[0]);
      SlugCharsStay(s[1..]);
    }
  }

  lemma {:induction false} SinglesStay(s: string)
    requires NoDoubleDash(s)
    ensures CollapseDashes(s) == s
  {
    if s != [] {
      assert NoDoubleDash(s[1..]);
      SinglesStay(s[1..]);
      if s[0] == '-' {
        assert AfterDashes(s) == s[1..];
      }
    }
  }

  lemma SlugsStay(fold: string -> string, slug: string)
    requires Folds(fold) && IsSlug(slug)
    ensures Slugify(fold, slug) == slug
  {
    assert Trimmed(slug) by {
      if slug != [] {
        assert InSlug(slug[0]) && InSlug(slug[|slug| - 1]);
      }
    }
    TrimTrims(slug);
    SlugCharsStay(slug);
    SinglesStay(slug);
  }

  // ---- The replacements as one pass ----

  // White space and dashes between two kept characters become one dash, other characters nothing: within says
  // that a character was kept before, gap that white space or a dash has come since.
  function OnePass(s: string, within: bool, gap: bool): string {
    if s == [] then []
    else if IsWord(s[0]) then (if within && gap then "-" else "") + [s[0]] + OnePass(s[1..], true, false)
    else OnePass(s[1..], within, gap || s[0] == '-' || IsSpace(s[0]))
  }

  predicate Gap(c: char) {
    c == '-' || IsSpace(c)
  }

  lemma WordsAreNoGaps(c: char)
    ensures IsWord(c) ==> !Gap(c)
  {
  }

  lemma {:induction false} LeadingGaps(s: string)
    ensures OnePass(s, false, true) == OnePass(s, false, false)
  {
    if s != [] && !IsWord(s[0]) {
      LeadingGaps(s[1..]);
    }
  }

  lemma {:induction false} TrailingGap(s: string, c: char, within: bool, gap: bool)
    requires Gap(c)
    ensures OnePass(s + [c], within, gap) == OnePass(s, within, gap)
  {
    WordsAreNoGaps(c);
    if s == [] {
      assert [] + [c] == [c];
    } else {
      assert (s + [c])[1..] == s[1..] + [c];
      if IsWord(s[0]) {
        TrailingGap(s[1..], c, true, false);
      } else {
        TrailingGap(s[1..], c, within, gap || s[0] == '-' || IsSpace(s[0]));
      }
    }
  }

  lemma {:induction false} TrimmingPasses(s: string)
    ensures OnePass(TrimLeft(s), false, false) == OnePass(s, false, false)
    ensures OnePass(TrimRight(s), false, false) == OnePass(s, false, false)
    decreases |s|
  {
    if s != [] {
      if IsSpace(s[0]) {
        WordsAreNoGaps(s[0]);
        TrimmingPasses(s[1..]);
        LeadingGaps(s[1..]);
      }
      if IsSpace(s[|s| - 1]) {
        TrimmingPasses(s[..|s| - 1]);
        assert s == s[..|s| - 1] + [s[|s| - 1]];
        TrailingGap(s[..|s| - 1], s[|s| - 1], false, false);
      }
    }
  }

  lemma {:induction false} SpacesPass(s: string, within: bool)
    ensures OnePass(AfterSpaces(s), within, true) == OnePass(s, within, true)
  {
    if s != [] && IsSpace(s[0]) {
      WordsAreNoGaps(s[0]);
      SpacesPass(s[1..], within);
    }
  }

  lemma {:induction false} DashingPasses(s: string, within: bool, gap: bool)
    ensures OnePass(DashSpaces(s), within, gap) == OnePass(s, within, gap)
    ensures forall c <- DashSpaces(s) :: !IsSpace(c)
    decreases |s|
  {
    if s != [] {
      if IsSpace(s[0]) {
        WordsAreNoGaps(s[0]);
        DashingPasses(AfterSpaces(s), within, true);
        SpacesPass(s, within);
        SpacesPass(s[1..], within);
        assert ("-" + DashSpaces(AfterSpaces(s)))[1..] == DashSpaces(AfterSpaces(s));
      } else {
        DashingPasses(s[1..], within || IsWord(s[0]), !IsWord(s[0]) && (gap || s[0] == '-'));
        assert ([s[0]] + DashSpaces(s[1..]))[1..] == DashSpaces(s[1..]);
      }
    }
  }

  lemma {:induction false} KeepingPasses(s: string, within: bool, gap: bool)
    requires forall c <- s :: !IsSpace(c)
    ensures OnePass(KeepWords(s), within, gap) == OnePass(s, within, gap)
  {
    if s != [] {
      KeepingPasses(s[1..], within || IsWord(s[0]), !IsWord(s[0]) && (gap || s[0] == '-'));
      assert ([s[0]] + KeepWords(s[1..]))[1..] == KeepWords(s[1..]);
    }
  }

  lemma {:induction false} DashesPass(s: string, within: bool)
    ensures OnePass(AfterDashes(s), within, true) == OnePass(s, within, true)
  {
    if s != [] && s[0] == '-' {
      DashesPass(s[1..], within);
    }
  }

  lemma {:induction false} CollapsingPasses(s: string, within: bool, gap: bool)
    ensures OnePass(CollapseDashes(s), within, gap) == OnePass(s, within, gap)
    decreases |s|
  {
    if s != [] {
      if s[0] == '-' {
        CollapsingPasses(AfterDashes(s), within, true);
        DashesPass(s[1..], within);
        assert ("-" + CollapseDashes(AfterDashes(s)))[1..] == CollapseDashes(AfterDashes(s));
      } else {
        CollapsingPasses(s[1..], within || IsWord(s[0]), !IsWord(s[0]) && (gap || IsSpace(s[0])));
        assert ([s[0]] + CollapseDashes(s[1..]))[1..] == CollapseDashes(s[1..]);
      }
    }
  }

  lemma {:induction false} EndsPass(s: string)
    ensures OnePass(AfterDashes(s), false, false) == OnePass(s, false, false)
    ensures OnePass(BeforeDashes(s), false, false) == OnePass(s, false, false)
    decreases |s|
  {
    if s != [] {
      if s[0] == '-' {
        EndsPass(s[1..]);
        LeadingGaps(s[1..]);
      }
      if s[|s| - 1] == '-' {
        EndsPass(s[..|s| - 1]);
        assert s == s[..|s| - 1] + [s[|s| - 1]];
        TrailingGap(s[..|s| - 1], '-', false, false);
      }
    }
  }

  // A slug passes unchanged, whatever comes after it; after a kept character, so does what may follow it in a
  // slug.
  lemma {:induction false} SlugPasses(s: string, rest: string, within: bool, gap: bool)
    requires SlugChars(s) && NoDoubleDash(s) && s != [] && s[|s| - 1] != '-'
    requires s[0] == '-' ==> within && !gap
    ensures OnePass(s + rest, within, gap) == (if within && gap then "-" else "") + s + OnePass(rest, true, false)
  {
    assert InSlug(s[0]) && SlugChars(s[1..]) && NoDoubleDash(s[1..]);
    assert (s + rest)[1..] == s[1..] + rest && s == [s[0]] + s[1..];
    if |s| > 1 {
      SlugPasses(s[1..], rest, s[0] != '-' || within, s[0] == '-');
    } else {
      assert s[1..] + rest == rest;
    }
  }

  // The chain of replacements is one pass over the text: what it keeps are the letters, digits and
  // underscores in order, with one dash wherever white space or a dash stood between two of them.
  lemma SlugifyIsOnePass(fold: string -> string, text: string)
    requires Folds(fold)
    ensures Slugify(fold, text) == OnePass(fold(text), false, false)
  {
    hide OnePass, DashSpaces, KeepWords, CollapseDashes, AfterDashes, BeforeDashes, TrimLeft, TrimRight;
    var slug, folded := Slugify(fold, text), fold(text);
    SlugifyMakesSlugs(fold, text);
    if slug != [] {
      SlugPasses(slug, [], false, false);
      assert slug + [] == slug && OnePass([], true, false) == [] by { PassesNothing(); }
    } else {
      PassesNothing();
    }
    TrimmingPasses(folded);
    TrimmingPasses(TrimLeft(folded));
    var dashed := DashSpaces(Trim(folded));
    DashingPasses(Trim(folded), false, false);
    KeepingPasses(dashed, false, false);
    CollapsingPasses(KeepWords(dashed), false, false);
    var collapsed := CollapseDashes(KeepWords(dashed));
    EndsPass(collapsed);
    EndsPass(AfterDashes(collapsed));
  }

  lemma PassesNothing()
    ensures forall within, gap :: OnePass([], within, gap) == []
  {
  }

  lemma {:induction false} SpacesAreAGap(spaces: string, rest: string, gap: bool)
    requires forall c <- spaces :: IsSpace(c)
    ensures OnePass(spaces + rest, true, gap) == OnePass(rest, true, gap || spaces != [])
  {
    if spaces == [] {
      assert spaces + rest == rest;
    } else {
      WordsAreNoGaps(spaces[0]);
      assert (spaces + rest)[1..] == spaces[1..] + rest;
      SpacesAreAGap(spaces[1..], rest, true);
    }
  }

  // Words that white space separates come back joined by a dash, other characters between them by nothing.
  lemma WordsAreJoined(fold: string -> string, a: string, b: string, spaces: string, marks: string)
    requires Folds(fold) && IsSlug(a) && IsSlug(b) && a != [] && b != []
    requires spaces != [] && (forall c <- spaces :: IsSpace(c)) && forall c <- marks :: !Gap(c) && !IsWord(c)
    requires fold(a + spaces + b) == a + spaces + b && fold(a + marks + b) == a + marks + b
    ensures Slugify(fold, a + spaces + b) == a + "-" + b && Slugify(fold, a + marks + b) == a + b
  {
    hide OnePass;
    SlugifyIsOnePass(fold, a + spaces + b);
    assert a + spaces + b == a + (spaces + b) && b + [] == b;
    SlugPasses(a, spaces + b, false, false);
    SpacesAreAGap(spaces, b, false);
    SlugPasses(b, [], true, true);
    PassesNothing();
    SlugifyIsOnePass(fold, a + marks + b);
    assert a + marks + b == a + (marks + b);
    SlugPasses(a, marks + b, false, false);
    MarksVanish(marks, b);
    SlugPasses(b, [], true, false);
  }

  lemma {:induction false} MarksVanish(marks: string, rest: string)
    requires forall c <- marks :: !Gap(c) && !IsWord(c)
    ensures OnePass(marks + rest, true, false) == OnePass(rest, true, false)
  {
    if marks == [] {
      assert marks + rest == rest;
    } else {
      assert (marks + rest)[1..] == marks[1..] + rest;
      MarksVanish(marks[1..], rest);
    }
  }

  // The slugs are exactly the results, and slugifying twice is slugifying once.
  lemma SlugsAreTheFixedPoints(fold: string -> string, text: string)
    requires Folds(fold)
    ensures Slugify(fold, Slugify(fold, text)) == Slugify(fold, text)
    ensures IsSlug(text) <==> Slugify(fold, text) == text
  {
    SlugifyMakesSlugs(fold, text);
    SlugsStay(fold, Slugify(fold, text));
    if IsSlug(text) {
      SlugsStay(fold, text);
    }
  }
}
